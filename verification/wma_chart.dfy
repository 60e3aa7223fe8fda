/** The forecast chart's own computations (src/pages/WMAForecast.tsx): its weekly bucketing
    with a different week-start rule, its local copy of the WMA, the per-row forecast and
    weighted-value cells, and the MAPE rating. */
module WmaChart {
  import opened Types
  import Calendar
  import Bucketing
  import Forecasting
  import Inventory

  /** `date.getDate() - date.getDay() + 1`: Monday to Saturday map to their own week's
      Monday, but a Sunday maps to the Monday after it. */
  function ChartWeekStart(d: Day): (w: Day)
    ensures Calendar.IsMonday(w)
    ensures Calendar.Weekday(d) != 0 ==> w == Calendar.WeekKey(d)
    ensures Calendar.Weekday(d) == 0 ==> w == d + 1 && w == Calendar.WeekKey(d) + 7
  {
    var w := d - Calendar.Weekday(d) + 1;
    assert w == Calendar.WeekKey(d) + (if Calendar.Weekday(d) == 0 then 7 else 0);
    w
  }

  /** The page's local `calculateWMA`, in hundredths. */
  function ChartWma(data: seq<int>): (f: int)
    ensures |data| < 3 ==> f == if data == [] then 0 else 100 * data[|data| - 1]
    ensures |data| >= 3 ==>
      var n := |data|;
      var x := (data[n - 3] + 2 * data[n - 2] + 3 * data[n - 1]) as real / 6.0 * 100.0;
      x - 0.5 < f as real <= x + 0.5
  {
    if |data| < 3 then
      if data == [] then 0 else 100 * data[|data| - 1]
    else
      var recent3 := data[|data| - 3..];
      var weightedSum := Forecasting.WeightedSum(recent3, Forecasting.Weights);
      Forecasting.WeightedSumOfThree(recent3);
      Forecasting.HundredthsOfSixth(weightedSum);
      (100 * weightedSum + 3) / 6
  }

  /** The page's copy of the WMA agrees with the hook's on every input. */
  lemma ChartWmaAgrees(data: seq<int>)
    ensures ChartWma(data) == Forecasting.Wma(data)
  {
  }

  datatype ChartRow = ChartRow(week: Day, actual: int, forecast: Option<int>)

  /** Row `index`'s forecast: the WMA of all earlier weeks once there are three of them. */
  function RowForecast(actuals: seq<int>, index: nat): (r: Option<int>)
    requires index <= |actuals|
    ensures r.Some? <==> index >= 3
    ensures index >= 3 ==> r == Some(Forecasting.Wma(actuals[index - 3..index]))
  {
    var prevWeeks := actuals[..index];
    if |prevWeeks| >= 3 then
      ChartWmaAgrees(prevWeeks);
      Forecasting.WmaWindow(prevWeeks);
      assert prevWeeks[index - 3..] == actuals[index - 3..index];
      Some(ChartWma(prevWeeks))
    else None
  }

  /** One row per week, each with its actual and its forecast. */
  function RowsOf(weeks: seq<Day>, actuals: seq<int>): (rows: seq<ChartRow>)
    requires |weeks| == |actuals|
    ensures |rows| == |weeks|
    ensures forall i :: 0 <= i < |rows| ==>
      rows[i] == ChartRow(weeks[i], actuals[i], RowForecast(actuals, i))
  {
    seq(|weeks|, i requires 0 <= i < |weeks| => ChartRow(weeks[i], actuals[i], RowForecast(actuals, i)))
  }

  /** The rows of `getWeeklyData`. */
  function ChartRows(history: seq<Sale>): seq<ChartRow>
  {
    RowsOf(Bucketing.BucketWeeks(history, ChartWeekStart), Bucketing.BucketTotals(history, ChartWeekStart))
  }

  function Actuals(rows: seq<ChartRow>): (a: seq<int>)
    ensures |a| == |rows| && forall i :: 0 <= i < |rows| ==> a[i] == rows[i].actual
  {
    seq(|rows|, i requires 0 <= i < |rows| => rows[i].actual)
  }

  /** Each chart row's actual is the quantity sold in that row's week. */
  lemma ChartRowsActuals(history: seq<Sale>)
    ensures var rows := ChartRows(history);
      forall i :: 0 <= i < |rows| ==>
        rows[i].actual == Bucketing.WeekTotal(history, ChartWeekStart, rows[i].week)
  {
    var weeks := Bucketing.BucketWeeks(history, ChartWeekStart);
    var totals := Bucketing.BucketTotals(history, ChartWeekStart);
    var rows := RowsOf(weeks, totals);
    assert rows == ChartRows(history);
    forall i | 0 <= i < |rows|
      ensures rows[i].actual == Bucketing.WeekTotal(history, ChartWeekStart, rows[i].week)
    {
      assert rows[i].week == weeks[i] && rows[i].actual == totals[i];
    }
  }

  /** The chart rows are in strictly ascending week order. */
  lemma ChartRowsAscending(history: seq<Sale>)
    ensures var rows := ChartRows(history);
      forall i, j :: 0 <= i < j < |rows| ==> rows[i].week < rows[j].week
  {
    var weeks := Bucketing.BucketWeeks(history, ChartWeekStart);
    var rows := RowsOf(weeks, Bucketing.BucketTotals(history, ChartWeekStart));
    assert rows == ChartRows(history);
    forall i, j | 0 <= i < j < |rows| ensures rows[i].week < rows[j].week {
      assert rows[i].week == weeks[i] && rows[j].week == weeks[j];
    }
  }

  /** The week column of the chart. */
  function Weeks(rows: seq<ChartRow>): (w: seq<Day>)
    ensures |w| == |rows| && forall i :: 0 <= i < |rows| ==> w[i] == rows[i].week
  {
    seq(|rows|, i requires 0 <= i < |rows| => rows[i].week)
  }

  /** The chart has a row for a week exactly when the history has a sale in that week. */
  lemma ChartRowsWeeks(history: seq<Sale>)
    ensures forall k :: k in Weeks(ChartRows(history)) <==> Bucketing.HasWeek(history, ChartWeekStart, k)
  {
    var weeks := Bucketing.BucketWeeks(history, ChartWeekStart);
    var rows := RowsOf(weeks, Bucketing.BucketTotals(history, ChartWeekStart));
    assert rows == ChartRows(history);
    assert Weeks(rows) == weeks;
  }

  /** `getWeeklyData`: fills the per-week record in one pass over the history, sorts the
      week keys and attaches each row's forecast. */
  method GetWeeklyData(history: seq<Sale>) returns (rows: seq<ChartRow>)
    ensures rows == ChartRows(history)
  {
    var order, grouped := Bucketing.Bucket(history, ChartWeekStart);
    var weeks := Bucketing.SortAscending(order);
    assert weeks == Bucketing.BucketWeeks(history, ChartWeekStart);
    assert forall j :: 0 <= j < |weeks| ==> weeks[j] in grouped by {
      forall j | 0 <= j < |weeks| ensures weeks[j] in grouped {
        assert weeks[j] in multiset(order);
      }
    }
    var actuals := seq(|weeks|, j requires 0 <= j < |weeks| => grouped[weeks[j]]);
    Bucketing.TotalsAgree(history, ChartWeekStart, weeks, actuals);
    rows := RowsOf(weeks, actuals);
  }

  /** `hasForecast` of the details table: at least three rows before this one. */
  predicate HasForecast(index: nat)
  {
    index >= 3
  }

  /** The weighted-value cell: `1·a + 2·b + 3·c` over the three previous rows' actuals. */
  function WeightedValue(rows: seq<ChartRow>, index: nat): (v: int)
    requires 3 <= index <= |rows|
    ensures v == rows[index - 3].actual + 2 * rows[index - 2].actual + 3 * rows[index - 1].actual
  {
    var prev3 := Actuals(rows[index - 3..index]);
    assert prev3[0] == rows[index - 3].actual;
    assert prev3[1] == rows[index - 2].actual;
    assert prev3[2] == rows[index - 1].actual;
    prev3[0] * 1 + prev3[1] * 2 + prev3[2] * 3
  }

  /** Over any three weeks the WMA is the weighted value over 6, rounded to two decimals. */
  lemma WindowRounding(w: seq<int>)
    requires |w| == 3
    ensures var x := (w[0] + 2 * w[1] + 3 * w[2]) as real / 6.0 * 100.0;
      x - 0.5 < Forecasting.Wma(w) as real <= x + 0.5
  {
    ChartWmaAgrees(w);
  }

  /** The forecast and weighted-value cells of rows built from any weeks and actuals. */
  lemma RowsOfForecastCells(weeks: seq<Day>, actuals: seq<int>, index: nat)
    requires |weeks| == |actuals| && index < |actuals|
    ensures var rows := RowsOf(weeks, actuals);
      rows[index].forecast.Some? <==> HasForecast(index)
    ensures var rows := RowsOf(weeks, actuals);
      HasForecast(index) ==>
        && rows[index].forecast == Some(Forecasting.Wma(Actuals(rows)[index - 3..index]))
        && var x := WeightedValue(rows, index) as real / 6.0 * 100.0;
           (x - 0.5 < rows[index].forecast.value as real <= x + 0.5)
  {
    var rows := RowsOf(weeks, actuals);
    assert Actuals(rows) == actuals;
    if HasForecast(index) {
      var w := actuals[index - 3..index];
      assert w[0] == rows[index - 3].actual && w[1] == rows[index - 2].actual && w[2] == rows[index - 1].actual;
      assert WeightedValue(rows, index) == w[0] + 2 * w[1] + 3 * w[2];
      WindowRounding(w);
    }
  }

  /** A forecast is shown exactly when `hasForecast` holds; it is the WMA of the three weeks
      just before, and the weighted-value cell over 6, rounded to two decimals. */
  lemma RowForecastCells(history: seq<Sale>, index: nat)
    requires index < |ChartRows(history)|
    ensures var rows := ChartRows(history);
      rows[index].forecast.Some? <==> HasForecast(index)
    ensures var rows := ChartRows(history);
      HasForecast(index) ==>
        && rows[index].forecast == Some(Forecasting.Wma(Actuals(rows)[index - 3..index]))
        && var x := WeightedValue(rows, index) as real / 6.0 * 100.0;
           (x - 0.5 < rows[index].forecast.value as real <= x + 0.5)
  {
    RowsOfForecastCells(Bucketing.BucketWeeks(history, ChartWeekStart), Bucketing.BucketTotals(history, ChartWeekStart), index);
  }

  /** Each charted forecast is the back-test forecast over the chart's own weekly actuals
      (the hook's own when no sale falls on a Sunday, by `RowMatchesHookBacktest`). */
  lemma RowMatchesBacktest(history: seq<Sale>, index: nat)
    requires 3 <= index < |ChartRows(history)|
    ensures var rows := ChartRows(history);
      var actuals := Actuals(rows);
      rows[index].forecast.Some? &&
      Forecasting.Forecasts(actuals, |actuals|)[index - 3] == rows[index].forecast.value as real / 100.0
  {
    var rows := ChartRows(history);
    RowForecastCells(history, index);
    assert Actuals(rows)[index - 3..index] == Actuals(rows)[index - 3..index - 3 + 3];
  }

  /** When no sale falls on a Sunday, the chart's weekly actuals are exactly the hook's
      weekly series for that product, although the chart reads the newest-first history and
      the hook the unsorted filter result. */
  lemma ChartMatchesHook(sales: seq<Sale>, productId: string)
    requires forall i :: 0 <= i < |sales| && sales[i].productId == productId ==>
      Calendar.Weekday(sales[i].date) != 0
    ensures Actuals(ChartRows(Inventory.SalesHistory(sales, productId)))
         == Bucketing.WeeklySeries(Inventory.SalesOf(sales, productId))
  {
    var history := Inventory.SalesHistory(sales, productId);
    var mine := Inventory.SalesOf(sales, productId);
    Bucketing.BucketPermutation(history, mine, ChartWeekStart);
    forall i | 0 <= i < |mine| ensures ChartWeekStart(mine[i].date) == Calendar.WeekKey(mine[i].date) {
      assert mine[i] in sales;
      var j :| 0 <= j < |sales| && sales[j] == mine[i];
    }
    Bucketing.BucketSameKeys(mine, ChartWeekStart, Calendar.WeekKey);
    assert Actuals(ChartRows(history)) == Bucketing.BucketTotals(history, ChartWeekStart);
  }

  /** When no sale of the product falls on a Sunday, each charted forecast is the forecast
      the hook's back-test makes for that week. */
  lemma RowMatchesHookBacktest(sales: seq<Sale>, productId: string, index: nat)
    requires forall i :: 0 <= i < |sales| && sales[i].productId == productId ==>
      Calendar.Weekday(sales[i].date) != 0
    requires 3 <= index < |ChartRows(Inventory.SalesHistory(sales, productId))|
    ensures var rows := ChartRows(Inventory.SalesHistory(sales, productId));
      var weekly := Bucketing.WeeklySeries(Inventory.SalesOf(sales, productId));
      index < |weekly| && rows[index].forecast.Some? &&
      Forecasting.Forecasts(weekly, |weekly|)[index - 3] == rows[index].forecast.value as real / 100.0
  {
    var history := Inventory.SalesHistory(sales, productId);
    ChartMatchesHook(sales, productId);
    RowMatchesBacktest(history, index);
  }

  /** A sale on a Sunday is charted one week later than the hook counts it. */
  lemma SundayShift(d: Day)
    requires Calendar.Weekday(d) == 0
    ensures ChartWeekStart(d) == Calendar.WeekKey(d) + 7
  {
  }

  // ---------------------------------------------------------------------------
  // MAPE rating

  datatype MapeCategory = NotAvailable | VeryGood | Good | Fair | Poor

  /** `getMAPECategory` on a MAPE in hundredths of a percent: below 10 %, 20 % and 50 % are
      very good, good and fair; anything else is poor. */
  function MapeCategoryOf(mape: Option<int>): (c: MapeCategory)
    ensures c == NotAvailable <==> mape.None?
    ensures c == VeryGood <==> mape.Some? && mape.value < 1000
    ensures c == Good <==> mape.Some? && 1000 <= mape.value < 2000
    ensures c == Fair <==> mape.Some? && 2000 <= mape.value < 5000
    ensures c == Poor <==> mape.Some? && 5000 <= mape.value
  {
    if mape.None? then NotAvailable
    else if mape.value < 1000 then VeryGood
    else if mape.value < 2000 then Good
    else if mape.value < 5000 then Fair
    else Poor
  }

  /** The label the badge shows. */
  function Label(c: MapeCategory): string
  {
    match c
    case NotAvailable => "N/A"
    case VeryGood => "Sangat Baik"
    case Good => "Baik"
    case Fair => "Layak"
    case Poor => "Buruk"
  }

  lemma MapeCategoryBoundaries()
    ensures Label(MapeCategoryOf(Some(999))) == "Sangat Baik"
    ensures Label(MapeCategoryOf(Some(1000))) == "Baik"
    ensures Label(MapeCategoryOf(Some(5000))) == "Buruk"
    ensures Label(MapeCategoryOf(None)) == "N/A"
  {
  }
}
