/** The pure calculators of the inventory engine (src/hooks/useInventory.ts): the weighted
    moving average, safety stock, reorder point, MAPE, the back-test that feeds MAPE, and the
    stock-status classifier. Forecasts are kept exact in hundredths of a unit and MAPE in
    hundredths of a percent, the two-decimal rounding the source applies. */
module Forecasting {
  import opened Types
  import opened Numbers

  /** The WMA weights, oldest week first. */
  const Weights: seq<int> := [1, 2, 3]

  /** `values.reduce((sum, val, idx) => sum + val * weights[idx], 0)`. */
  function WeightedSum(values: seq<int>, weights: seq<int>): int
    requires |values| <= |weights|
  {
    if values == [] then 0
    else WeightedSum(values[..|values| - 1], weights) + values[|values| - 1] * weights[|values| - 1]
  }

  lemma WeightedSumOfThree(recent: seq<int>)
    requires |recent| == 3
    ensures WeightedSum(recent, Weights) == recent[0] + 2 * recent[1] + 3 * recent[2]
  {
    var a, b := recent[..1], recent[..2];
    assert b[..1] == a && a[..0] == [];
    assert WeightedSum(a, Weights) == recent[0] * Weights[0];
    assert WeightedSum(b, Weights) == WeightedSum(a, Weights) + recent[1] * Weights[1];
    assert recent[..2] == b;
  }

  /** Rounding `ws / 6 * 100` to the nearest integer gives `(100 * ws + 3) / 6`. */
  lemma HundredthsOfSixth(ws: int)
    ensures var x := ws as real / 6.0 * 100.0;
      x - 0.5 < ((100 * ws + 3) / 6) as real <= x + 0.5
  {
    var f := (100 * ws + 3) / 6;
    assert 6 * f <= 100 * ws + 3 < 6 * f + 6;
    assert ws as real / 6.0 * 100.0 == (100 * ws) as real / 6.0;
  }

  /** `calculateWMA`, in hundredths: with fewer than three weeks the latest week (or 0),
      otherwise the [1, 2, 3]-weighted mean of the last three weeks rounded to two decimals. */
  function Wma(series: seq<int>): (f: int)
    ensures |series| < 3 ==> f == if series == [] then 0 else 100 * series[|series| - 1]
    ensures |series| >= 3 ==>
      var n := |series|;
      var x := (series[n - 3] + 2 * series[n - 2] + 3 * series[n - 1]) as real / 6.0 * 100.0;
      x - 0.5 < f as real <= x + 0.5
  {
    if |series| < 3 then
      if series == [] then 0 else 100 * series[|series| - 1]
    else
      var recent := series[|series| - 3..];
      var weightedSum := WeightedSum(recent, Weights);
      WeightedSumOfThree(recent);
      HundredthsOfSixth(weightedSum);
      // Math.round(weightedSum / 6 * 100): the fraction of 100 * weightedSum / 6 is a
      // multiple of 1/3, so it never ties and rounding to nearest is (100 * ws + 3) / 6.
      (100 * weightedSum + 3) / 6
  }

  /** Only the last three weeks matter, and the forecast lies between their least and
      greatest value. */
  lemma WmaWindow(series: seq<int>)
    requires |series| >= 3
    ensures Wma(series) == Wma(series[|series| - 3..])
    ensures var n := |series|;
      var lo := if series[n - 3] <= series[n - 2] && series[n - 3] <= series[n - 1] then series[n - 3]
                else if series[n - 2] <= series[n - 1] then series[n - 2] else series[n - 1];
      var hi := if series[n - 3] >= series[n - 2] && series[n - 3] >= series[n - 1] then series[n - 3]
                else if series[n - 2] >= series[n - 1] then series[n - 2] else series[n - 1];
      100 * lo <= Wma(series) <= 100 * hi
  {
    WeightedSumOfThree(series[|series| - 3..]);
  }

  lemma WmaExamples()
    ensures Wma([]) == 0 && Wma([7]) == 700 && Wma([4, 9]) == 900
    ensures Wma([5, 10, 15]) == 1167
    ensures Wma([1, 5, 10, 15]) == 1167
  {
    WeightedSumOfThree([5, 10, 15]);
    assert [1, 5, 10, 15][1..] == [5, 10, 15];
  }

  /** `calculateSafetyStock`: `ceil((Dmax - Davg) * LT)`, and 0 for an empty series. */
  function SafetyStock(weekly: seq<int>, leadTime: real): (ss: int)
    ensures weekly == [] ==> ss == 0
    ensures weekly != [] ==>
      var x := (MaxOf(weekly) as real - Mean(weekly)) * leadTime;
      x <= ss as real < x + 1.0
    ensures leadTime >= 0.0 ==> ss >= 0
  {
    if |weekly| == 0 then 0
    else
      var dMax := MaxOf(weekly);
      var dAvg := Mean(weekly);
      MeanAtMostMax(weekly);
      Ceil((dMax as real - dAvg) * leadTime)
  }

  /** `calculateROP`: `ceil(Davg * LT + SS)`; an empty series gives back the safety stock. */
  function ReorderPoint(weekly: seq<int>, leadTime: real, safetyStock: int): (rop: int)
    ensures weekly == [] ==> rop == safetyStock
    ensures weekly != [] ==>
      var x := Mean(weekly) * leadTime;
      rop == safetyStock + Ceil(x) && x + safetyStock as real <= rop as real
    ensures (forall q :: q in weekly ==> q >= 0) && leadTime >= 0.0 ==> rop >= safetyStock
  {
    if |weekly| == 0 then safetyStock
    else
      var dAvg := Mean(weekly);
      CeilShift(dAvg * leadTime, safetyStock);
      assert (forall q :: q in weekly ==> q >= 0) ==> dAvg >= 0.0 by {
        if forall q :: q in weekly ==> q >= 0 { MeanNonNegative(weekly); }
      }
      Ceil(dAvg * leadTime + safetyStock as real)
  }

  lemma SafetyStockExamples()
    ensures SafetyStock([], 1.0) == 0 && ReorderPoint([], 1.0, 0) == 0
    ensures SafetyStock([10, 12, 14, 20], 7.0 / 7.0) == 6
    ensures ReorderPoint([10, 12, 14, 20], 7.0 / 7.0, 6) == 20
  {
    var s := [10, 12, 14, 20];
    assert MaxOf(s) == 20 by { assert MaxOf(s[1..]) == 20 by { assert MaxOf(s[2..]) == 20; } }
    assert s[..3] == [10, 12, 14] && s[..3][..2] == [10, 12] && s[..3][..2][..1] == [10];
    assert Sum([10]) == 10;
    assert Sum([10, 12]) == 22;
    assert Sum([10, 12, 14]) == 36;
    assert Sum(s) == 56;
    assert Mean(s) == 14.0;
  }

  // ---------------------------------------------------------------------------
  // MAPE

  /** Sum of `|(actual[i] - forecast[i]) / actual[i]|` over the indices below `n` whose actual
      value is positive. */
  function ErrorSum(actual: seq<real>, forecast: seq<real>, n: nat): (e: real)
    requires n <= |actual| && n <= |forecast|
    ensures e >= 0.0
  {
    if n == 0 then 0.0
    else
      ErrorSum(actual, forecast, n - 1)
        + (if actual[n - 1] > 0.0 then Abs((actual[n - 1] - forecast[n - 1]) / actual[n - 1]) else 0.0)
  }

  /** Number of indices below `n` whose actual value is positive. */
  function CountedIndices(actual: seq<real>, n: nat): (c: nat)
    requires n <= |actual|
    ensures c <= n
  {
    if n == 0 then 0 else CountedIndices(actual, n - 1) + (if actual[n - 1] > 0.0 then 1 else 0)
  }

  function Min(a: int, b: int): int
  {
    if a <= b then a else b
  }

  /** `calculateMAPE`, in hundredths of a percent: the mean absolute percentage error over the
      indices with a positive actual value, 0 when either input is empty or none counts. */
  function Mape(actual: seq<real>, forecast: seq<real>): (m: int)
    ensures m >= 0
    ensures actual == [] || forecast == [] ==> m == 0
    ensures CountedIndices(actual, Min(|actual|, |forecast|)) == 0 ==> m == 0
    ensures actual != [] && forecast != [] ==>
      var n := Min(|actual|, |forecast|);
      var count := CountedIndices(actual, n);
      count > 0 ==>
        var x := ErrorSum(actual, forecast, n) / count as real * 10000.0;
        x - 0.5 < m as real <= x + 0.5
  {
    if |actual| == 0 || |forecast| == 0 then 0
    else
      var n := Min(|actual|, |forecast|);
      var count := CountedIndices(actual, n);
      if count > 0 then Round(ErrorSum(actual, forecast, n) / count as real * 10000.0) else 0
  }

  /** The loop of `calculateMAPE`, accumulating `totalError` and `count`. */
  method CalculateMape(actual: seq<real>, forecast: seq<real>) returns (m: int)
    ensures m == Mape(actual, forecast)
  {
    if |actual| == 0 || |forecast| == 0 {
      return 0;
    }
    var totalError := 0.0;
    var count := 0;
    var n := Min(|actual|, |forecast|);
    var i := 0;
    while i < n
      invariant 0 <= i <= n
      invariant totalError == ErrorSum(actual, forecast, i)
      invariant count == CountedIndices(actual, i)
    {
      if actual[i] > 0.0 {
        totalError := totalError + Abs((actual[i] - forecast[i]) / actual[i]);
        count := count + 1;
      }
      i := i + 1;
    }
    m := if count > 0 then Round(totalError / count as real * 10000.0) else 0;
  }

  /** Forecasts at indices whose actual value is not positive never influence MAPE. */
  lemma {:induction false} ErrorSumIgnoresUncounted(actual: seq<real>, f: seq<real>, g: seq<real>, n: nat)
    requires n <= |actual| && n <= |f| && n <= |g|
    requires forall i :: 0 <= i < n && actual[i] > 0.0 ==> f[i] == g[i]
    ensures ErrorSum(actual, f, n) == ErrorSum(actual, g, n)
  {
    if n > 0 {
      ErrorSumIgnoresUncounted(actual, f, g, n - 1);
    }
  }

  lemma MapeIgnoresUncounted(actual: seq<real>, f: seq<real>, g: seq<real>)
    requires |f| == |g|
    requires forall i :: 0 <= i < |actual| && i < |f| && actual[i] > 0.0 ==> f[i] == g[i]
    ensures Mape(actual, f) == Mape(actual, g)
  {
    ErrorSumIgnoresUncounted(actual, f, g, Min(|actual|, |f|));
  }

  lemma MapeExample()
    ensures Mape([0.0, 10.0], [5.0, 8.0]) == 2000
  {
    var a, f := [0.0, 10.0], [5.0, 8.0];
    assert CountedIndices(a, 2) == 1;
    assert ErrorSum(a, f, 2) == Abs((10.0 - 8.0) / 10.0) == 0.2;
  }

  // ---------------------------------------------------------------------------
  // Back-test

  function ToReals(s: seq<int>): (r: seq<real>)
    ensures |r| == |s| && forall i :: 0 <= i < |s| ==> r[i] == s[i] as real
  {
    seq(|s|, i requires 0 <= i < |s| => s[i] as real)
  }

  /** The forecasts the back-test pushes for weeks 3 .. upTo - 1: each week's forecast is the
      WMA of the three weeks before it. */
  function Forecasts(weekly: seq<int>, upTo: nat): (f: seq<real>)
    requires 3 <= upTo <= |weekly|
    ensures |f| == upTo - 3
    ensures forall k :: 0 <= k < |f| ==> f[k] == Wma(weekly[k..k + 3]) as real / 100.0
  {
    if upTo == 3 then []
    else Forecasts(weekly, upTo - 1) + [Wma(weekly[upTo - 4..upTo - 1]) as real / 100.0]
  }

  /** The MAPE part of `getProductMetrics`: undefined below four weeks, otherwise MAPE of
      weeks 3.. against their back-tested forecasts. */
  function Backtest(weekly: seq<int>): (mape: Option<int>)
    ensures mape.None? <==> |weekly| < 4
    ensures mape.Some? ==> mape.value >= 0
    ensures |weekly| >= 4 ==>
      var actual, forecast := ToReals(weekly[3..]), Forecasts(weekly, |weekly|);
      |actual| == |forecast| == |weekly| - 3 && mape == Some(Mape(actual, forecast))
  {
    if |weekly| >= 4 then Some(Mape(ToReals(weekly[3..]), Forecasts(weekly, |weekly|))) else None
  }

  /** The back-test loop that pushes one forecast per week from index 3 on. */
  method RunBacktest(weekly: seq<int>) returns (mape: Option<int>)
    ensures mape == Backtest(weekly)
  {
    mape := None;
    if |weekly| >= 4 {
      var actual := ToReals(weekly[3..]);
      var forecast: seq<real> := [];
      var i := 3;
      while i < |weekly|
        invariant 3 <= i <= |weekly|
        invariant forecast == Forecasts(weekly, i)
      {
        var prev3 := weekly[i - 3..i];
        assert Forecasts(weekly, i + 1) == Forecasts(weekly, i) + [Wma(prev3) as real / 100.0];
        forecast := forecast + [Wma(prev3) as real / 100.0];
        i := i + 1;
      }
      var m := CalculateMape(actual, forecast);
      mape := Some(m);
    }
  }

  // ---------------------------------------------------------------------------
  // Stock status

  /** The status choice of `getProductMetrics`. */
  function Classify(stock: int, reorderPoint: int, safetyStock: int): (status: Status)
    ensures status == Critical <==> stock <= reorderPoint
    ensures status == Warning <==> reorderPoint < stock <= reorderPoint + safetyStock
    ensures status == Safe <==> reorderPoint < stock && reorderPoint + safetyStock < stock
  {
    if stock <= reorderPoint then Critical
    else if stock <= reorderPoint + safetyStock then Warning
    else Safe
  }

  function Severity(status: Status): nat
  {
    match status
    case Safe => 0
    case Warning => 1
    case Critical => 2
  }

  /** More stock never makes the status more severe. */
  lemma ClassifyMonotone(stock: int, more: int, reorderPoint: int, safetyStock: int)
    requires stock <= more
    ensures Severity(Classify(more, reorderPoint, safetyStock)) <= Severity(Classify(stock, reorderPoint, safetyStock))
  {
  }

  lemma ClassifyBoundaries(rop: int, ss: int)
    requires ss >= 0
    ensures Classify(rop, rop, ss) == Critical
    ensures ss > 0 ==> Classify(rop + ss, rop, ss) == Warning
    ensures Classify(rop + ss + 1, rop, ss) == Safe
  {
  }
}
