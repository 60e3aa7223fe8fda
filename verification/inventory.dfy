/** The inventory store of `useInventory` (src/hooks/useInventory.ts): the product and sale
    collections, their four mutations, and the views derived from them. Each React setter
    pair is one atomic state transition; each derived view is a function of the current
    collections. */
module Inventory {
  import opened Types
  import opened Numbers
  import opened Collections
  import opened Forecasting
  import Bucketing

  // ---------------------------------------------------------------------------
  // State transitions, as functions of the collections

  /** `{ ...p, ...updates }`: every key the patch carries overrides the product's. */
  function Merge(p: Product, patch: ProductPatch): Product
  {
    Product(
      if patch.id.Some? then patch.id.value else p.id,
      if patch.sku.Some? then patch.sku.value else p.sku,
      if patch.name.Some? then patch.name.value else p.name,
      if patch.category.Some? then patch.category.value else p.category,
      if patch.price.Some? then patch.price.value else p.price,
      if patch.currentStock.Some? then patch.currentStock.value else p.currentStock,
      if patch.leadTime.Some? then patch.leadTime.value else p.leadTime,
      if patch.createdAt.Some? then patch.createdAt.value else p.createdAt)
  }

  predicate HasProduct(products: seq<Product>, id: string)
  {
    exists i :: 0 <= i < |products| && products[i].id == id
  }

  /** The products after `updateProduct(id, patch)`. */
  function UpdateProducts(products: seq<Product>, id: string, patch: ProductPatch): (r: seq<Product>)
    ensures |r| == |products|
    ensures forall i :: 0 <= i < |r| && products[i].id == id ==> r[i] == Merge(products[i], patch)
    ensures forall i :: 0 <= i < |r| && products[i].id != id ==> r[i] == products[i]
    ensures !HasProduct(products, id) ==> r == products
  {
    seq(|products|, i requires 0 <= i < |products| =>
      if products[i].id == id then Merge(products[i], patch) else products[i])
  }

  /** No two products share an id. */
  predicate UniqueProductIds(products: seq<Product>)
  {
    forall i, j :: 0 <= i < j < |products| ==> products[i].id != products[j].id
  }

  /** No two sales share an id. */
  predicate UniqueSaleIds(sales: seq<Sale>)
  {
    forall i, j :: 0 <= i < j < |sales| ==> sales[i].id != sales[j].id
  }

  function Max0(x: int): int
  {
    if x < 0 then 0 else x
  }

  /** The products after `addSale` of `quantity` units of product `productId`: that product's
      stock drops by `quantity`, floored at 0. */
  function ApplySale(products: seq<Product>, productId: string, quantity: int): (r: seq<Product>)
    ensures |r| == |products|
    ensures forall i :: 0 <= i < |r| && products[i].id == productId ==>
      r[i] == products[i].(currentStock := Max0(products[i].currentStock - quantity))
    ensures forall i :: 0 <= i < |r| && products[i].id == productId ==>
      r[i].currentStock >= 0 &&
      (r[i].currentStock == 0 || r[i].currentStock == products[i].currentStock - quantity)
    ensures forall i :: 0 <= i < |r| && products[i].id != productId ==> r[i] == products[i]
    ensures !HasProduct(products, productId) ==> r == products
  {
    seq(|products|, i requires 0 <= i < |products| =>
      var p := products[i];
      if p.id == productId then p.(currentStock := Max0(p.currentStock - quantity)) else p)
  }

  predicate StocksNonNegative(products: seq<Product>)
  {
    forall i :: 0 <= i < |products| ==> products[i].currentStock >= 0
  }

  /** Recording a sale never makes any stock negative. */
  lemma ApplySaleKeepsStocksNonNegative(products: seq<Product>, productId: string, quantity: int)
    requires StocksNonNegative(products)
    ensures StocksNonNegative(ApplySale(products, productId, quantity))
  {
  }

  function OtherProduct(id: string): Product -> bool
  {
    (p: Product) => p.id != id
  }

  function SaleOf(productId: string): Sale -> bool
  {
    (s: Sale) => s.productId == productId
  }

  function SaleNotOf(productId: string): Sale -> bool
  {
    (s: Sale) => s.productId != productId
  }

  /** The products after `deleteProduct(id)`. */
  function RemoveProduct(products: seq<Product>, id: string): seq<Product>
  {
    Filter(products, OtherProduct(id))
  }

  /** The sales after `deleteProduct(id)`: the cascade. */
  function RemoveSalesOf(sales: seq<Sale>, id: string): seq<Sale>
  {
    Filter(sales, SaleNotOf(id))
  }

  /** `sales.filter(s => s.productId === productId)`. */
  function SalesOf(sales: seq<Sale>, productId: string): (r: seq<Sale>)
    ensures forall x :: x in r <==> x in sales && x.productId == productId
  {
    var r := Filter(sales, SaleOf(productId));
    assert forall x :: x in sales ==> exists i :: 0 <= i < |sales| && sales[i] == x;
    r
  }

  /** Deleting removes exactly the records of that id and keeps the rest. */
  lemma RemoveProductSpec(products: seq<Product>, id: string)
    ensures !HasProduct(RemoveProduct(products, id), id)
    ensures forall i :: 0 <= i < |products| && products[i].id != id ==> products[i] in RemoveProduct(products, id)
    ensures !HasProduct(products, id) ==> RemoveProduct(products, id) == products
  {
    if !HasProduct(products, id) {
      FilterKeepsAll(products, OtherProduct(id));
    }
  }

  /** After the cascade no sale refers to the deleted product, every other sale is kept, and
      the survivors keep their relative order. */
  lemma RemoveSalesOfSpec(sales: seq<Sale>, id: string)
    ensures SalesOf(RemoveSalesOf(sales, id), id) == []
    ensures forall i :: 0 <= i < |sales| && sales[i].productId != id ==> sales[i] in RemoveSalesOf(sales, id)
  {
    var r := RemoveSalesOf(sales, id);
    FilterDropsAll(r, SaleOf(id));
  }

  /** The cascade works piecewise, so the surviving sales keep their relative order. */
  lemma RemoveSalesOfKeepsOrder(a: seq<Sale>, b: seq<Sale>, id: string)
    ensures RemoveSalesOf(a + b, id) == RemoveSalesOf(a, id) + RemoveSalesOf(b, id)
  {
    FilterAppend(a, b, SaleNotOf(id));
  }

  // ---------------------------------------------------------------------------
  // Sales history, newest first

  predicate NewestFirst(s: seq<Sale>)
  {
    forall i, j :: 0 <= i < j < |s| ==> s[i].date >= s[j].date
  }

  /** Places `x` before the first sale that is not newer than it (a stable insertion). */
  function InsertByDate(x: Sale, s: seq<Sale>): (r: seq<Sale>)
    ensures multiset(r) == multiset(s) + multiset{x}
  {
    if s == [] || x.date >= s[0].date then [x] + s
    else
      assert s == [s[0]] + s[1..];
      [s[0]] + InsertByDate(x, s[1..])
  }

  lemma {:induction false} InsertByDateNewestFirst(x: Sale, s: seq<Sale>)
    requires NewestFirst(s)
    ensures NewestFirst(InsertByDate(x, s))
  {
    if s != [] && x.date < s[0].date {
      var rest := InsertByDate(x, s[1..]);
      InsertByDateNewestFirst(x, s[1..]);
      assert forall i :: 0 <= i < |rest| ==> rest[i].date <= s[0].date by {
        forall i | 0 <= i < |rest| ensures rest[i].date <= s[0].date {
          assert rest[i] in multiset(rest);
          if rest[i] != x {
            assert rest[i] in multiset(s[1..]);
            var j :| 0 <= j < |s[1..]| && s[1..][j] == rest[i];
            assert s[j + 1] == rest[i];
          }
        }
      }
    }
  }

  /** `sort((a, b) => b.date - a.date)`: newest first, equal dates in original order. */
  function SortNewestFirst(s: seq<Sale>): (r: seq<Sale>)
    ensures multiset(r) == multiset(s)
    ensures NewestFirst(r)
  {
    if s == [] then []
    else
      assert s == [s[0]] + s[1..];
      var rest := SortNewestFirst(s[1..]);
      InsertByDateNewestFirst(s[0], rest);
      InsertByDate(s[0], rest)
  }

  /** `getSalesHistory(productId)`: exactly that product's sales, newest first. */
  function SalesHistory(sales: seq<Sale>, productId: string): (r: seq<Sale>)
    ensures multiset(r) == multiset(SalesOf(sales, productId))
    ensures forall x :: x in r <==> x in sales && x.productId == productId
    ensures NewestFirst(r)
  {
    var mine := SalesOf(sales, productId);
    var r := SortNewestFirst(mine);
    SameElements(r, mine);
    r
  }

  lemma SameElements(a: seq<Sale>, b: seq<Sale>)
    requires multiset(a) == multiset(b)
    ensures forall x :: x in a <==> x in b
  {
    forall x ensures x in a <==> x in b {
      assert x in a <==> x in multiset(a);
      assert x in b <==> x in multiset(b);
    }
  }

  // ---------------------------------------------------------------------------
  // Derived metrics and views

  /** `getProductMetrics`: bucket the product's sales by week and derive the forecast,
      safety stock, reorder point, back-tested MAPE and status. Lead time is converted from
      days to weeks. The history kept in the record is the unsorted filter result. */
  function ProductMetrics(p: Product, sales: seq<Sale>): (m: ProductWithMetrics)
    ensures m.product == p
    ensures m.salesHistory == SalesOf(sales, p.id)
    ensures var w, lt := Bucketing.WeeklySeries(SalesOf(sales, p.id)), p.leadTime / 7.0;
      && m.wmaForecast == Wma(w)
      && m.safetyStock == SafetyStock(w, lt)
      && m.reorderPoint == ReorderPoint(w, lt, m.safetyStock)
      && m.mape == Backtest(w)
    ensures m.mape.None? <==> |Bucketing.WeeklySeries(SalesOf(sales, p.id))| < 4
    ensures m.status == Critical <==> p.currentStock <= m.reorderPoint
    ensures m.status == Warning <==> m.reorderPoint < p.currentStock <= m.reorderPoint + m.safetyStock
    ensures p.leadTime >= 0.0 ==> m.safetyStock >= 0
    ensures p.leadTime >= 0.0 && (forall i :: 0 <= i < |sales| ==> sales[i].quantity >= 0) ==>
      m.safetyStock <= m.reorderPoint
  {
    var productSales := SalesOf(sales, p.id);
    var weekly := Bucketing.WeeklySeries(productSales);
    var lt := p.leadTime / 7.0;
    var ss := SafetyStock(weekly, lt);
    var rop := ReorderPoint(weekly, lt, ss);
    assert p.leadTime >= 0.0 ==> lt >= 0.0;
    assert (forall i :: 0 <= i < |sales| ==> sales[i].quantity >= 0) ==> (forall q :: q in weekly ==> q >= 0) by {
      if forall i :: 0 <= i < |sales| ==> sales[i].quantity >= 0 {
        Bucketing.WeeklySeriesNonNegative(productSales);
      }
    }
    ProductWithMetrics(p, productSales, Wma(weekly), ss, rop, Backtest(weekly), Classify(p.currentStock, rop, ss))
  }

  /** `productsWithMetrics`: the metrics of every product, in product order. */
  function ProductsWithMetrics(products: seq<Product>, sales: seq<Sale>): (ms: seq<ProductWithMetrics>)
    ensures |ms| == |products|
    ensures forall i :: 0 <= i < |ms| ==> ms[i] == ProductMetrics(products[i], sales)
  {
    Map(products, MetricsOf(sales))
  }

  function MetricsOf(sales: seq<Sale>): Product -> ProductWithMetrics
  {
    (p: Product) => ProductMetrics(p, sales)
  }

  predicate IsWarning(m: ProductWithMetrics) { m.status == Warning }
  predicate IsCritical(m: ProductWithMetrics) { m.status == Critical }
  predicate IsLow(m: ProductWithMetrics) { m.status == Critical || m.status == Warning }

  /** `lowStockProducts`: the products whose status is warning or critical. */
  function LowStockProducts(products: seq<Product>, sales: seq<Sale>): (low: seq<ProductWithMetrics>)
    ensures |low| <= |products|
    ensures forall i :: 0 <= i < |low| ==> low[i] in ProductsWithMetrics(products, sales)
    ensures forall i :: 0 <= i < |low| ==> low[i].status != Safe
    ensures forall i :: 0 <= i < |products| && ProductMetrics(products[i], sales).status != Safe ==>
      ProductMetrics(products[i], sales) in low
  {
    Filter(ProductsWithMetrics(products, sales), IsLow)
  }

  /** `getProductsByCategory(category)`. */
  function ProductsByCategory(products: seq<Product>, sales: seq<Sale>, category: Category): (ms: seq<ProductWithMetrics>)
    ensures |ms| <= |products|
    ensures forall i :: 0 <= i < |ms| ==> ms[i] in ProductsWithMetrics(products, sales)
    ensures forall i :: 0 <= i < |ms| ==> ms[i].product.category == category
    ensures forall i :: 0 <= i < |products| && products[i].category == category ==>
      ProductMetrics(products[i], sales) in ms
  {
    var all := ProductsWithMetrics(products, sales);
    assert forall i :: 0 <= i < |products| ==> all[i].product == products[i];
    Filter(all, InCategory(category))
  }

  function InCategory(category: Category): ProductWithMetrics -> bool
  {
    (m: ProductWithMetrics) => m.product.category == category
  }

  /** The low-stock and per-category views list their products in product order. */
  lemma ViewsKeepProductOrder(a: seq<Product>, b: seq<Product>, sales: seq<Sale>, category: Category)
    ensures LowStockProducts(a + b, sales) == LowStockProducts(a, sales) + LowStockProducts(b, sales)
    ensures ProductsByCategory(a + b, sales, category)
         == ProductsByCategory(a, sales, category) + ProductsByCategory(b, sales, category)
  {
    MapAppend(a, b, MetricsOf(sales));
    FilterAppend(ProductsWithMetrics(a, sales), ProductsWithMetrics(b, sales), IsLow);
    FilterAppend(ProductsWithMetrics(a, sales), ProductsWithMetrics(b, sales), InCategory(category));
  }

  /** The defined MAPE values, in product order. */
  function MapeValues(ms: seq<ProductWithMetrics>): (vs: seq<int>)
    ensures |vs| <= |ms|
    ensures forall i :: 0 <= i < |ms| && ms[i].mape.Some? ==> ms[i].mape.value in vs
    ensures forall v :: v in vs ==> exists i :: 0 <= i < |ms| && ms[i].mape == Some(v)
  {
    if ms == [] then []
    else (if ms[0].mape.Some? then [ms[0].mape.value] else []) + MapeValues(ms[1..])
  }

  /** The defined MAPE values follow product order. */
  lemma {:induction false} MapeValuesAppend(a: seq<ProductWithMetrics>, b: seq<ProductWithMetrics>)
    ensures MapeValues(a + b) == MapeValues(a) + MapeValues(b)
  {
    if a == [] {
      assert a + b == b;
    } else {
      assert (a + b)[1..] == a[1..] + b;
      MapeValuesAppend(a[1..], b);
    }
  }

  /** The low-stock list is exactly the warnings plus the criticals. */
  lemma {:induction false} LowSplits(ms: seq<ProductWithMetrics>)
    ensures |Filter(ms, IsLow)| == |Filter(ms, IsWarning)| + |Filter(ms, IsCritical)|
  {
    if ms != [] {
      LowSplits(ms[1..]);
    }
  }

  /** Every defined MAPE is non-negative. */
  lemma {:induction false} MapeValuesNonNegative(products: seq<Product>, sales: seq<Sale>, ms: seq<ProductWithMetrics>)
    requires forall i :: 0 <= i < |ms| ==> ms[i] in ProductsWithMetrics(products, sales)
    ensures forall v :: v in MapeValues(ms) ==> v >= 0
  {
    if ms != [] {
      MapeValuesNonNegative(products, sales, ms[1..]);
      var all := ProductsWithMetrics(products, sales);
      assert ms[0] in all;
      var j :| 0 <= j < |all| && all[j] == ms[0];
    }
  }

  /** `dashboardStats`. */
  function Dashboard(products: seq<Product>, sales: seq<Sale>): (d: DashboardStats)
    ensures d.totalProducts == |products| && d.totalSKUs == |products|
    ensures d.totalTransactions == |sales|
    ensures d.lowStockCount == |Filter(ProductsWithMetrics(products, sales), IsWarning)|
    ensures d.criticalStockCount == |Filter(ProductsWithMetrics(products, sales), IsCritical)|
    ensures d.lowStockCount + d.criticalStockCount == |LowStockProducts(products, sales)| <= |products|
    ensures d.averageMape >= 0
    ensures var vs := MapeValues(ProductsWithMetrics(products, sales));
      && (vs == [] ==> d.averageMape == 0)
      && (vs != [] ==>
            var mean := Sum(vs) as real / |vs| as real;
            mean - 0.5 < d.averageMape as real <= mean + 0.5)
  {
    var metrics := ProductsWithMetrics(products, sales);
    var mapeValues := MapeValues(metrics);
    LowSplits(metrics);
    MapeValuesNonNegative(products, sales, metrics);
    DashboardStats(
      |products|,
      |products|,
      |Filter(metrics, IsWarning)|,
      |Filter(metrics, IsCritical)|,
      |sales|,
      AverageMape(mapeValues))
  }

  /** The mean of the defined MAPE values rounded to two decimals (hundredths in, hundredths
      out), and 0 when there is none. */
  function AverageMape(values: seq<int>): (a: int)
    requires forall v :: v in values ==> v >= 0
    ensures a >= 0
    ensures values == [] ==> a == 0
    ensures values != [] ==>
      var mean := Sum(values) as real / |values| as real;
      mean - 0.5 < a as real <= mean + 0.5
  {
    if |values| > 0 then
      SumNonNegative(values);
      Round(Sum(values) as real / |values| as real)
    else 0
  }

  /** A sale shows up at once in its product's metrics: the stock is the clamped new value and
      the weekly series gains exactly the sold quantity. */
  lemma SaleReflectedInMetrics(products: seq<Product>, sales: seq<Sale>, s: Sale, i: nat)
    requires i < |products| && products[i].id == s.productId
    ensures var m := ProductMetrics(ApplySale(products, s.productId, s.quantity)[i], sales + [s]);
      && m.product.currentStock == Max0(products[i].currentStock - s.quantity)
      && Sum(Bucketing.WeeklySeries(m.salesHistory))
         == Sum(Bucketing.WeeklySeries(SalesOf(sales, s.productId))) + s.quantity
  {
    var before := SalesOf(sales, s.productId);
    FilterAppend(sales, [s], SaleOf(s.productId));
    assert Filter([s], SaleOf(s.productId)) == [s];
    assert SalesOf(sales + [s], s.productId) == before + [s];
    var p' := ApplySale(products, s.productId, s.quantity)[i];
    assert p'.id == s.productId;
    Bucketing.WeeklySeriesAppend(before, s);
  }

  // ---------------------------------------------------------------------------
  // The store

  class Store {
    var products: seq<Product>
    var sales: seq<Sale>

    /** A store holding the given initial collections. */
    constructor (initialProducts: seq<Product>, initialSales: seq<Sale>)
      ensures products == initialProducts && sales == initialSales
    {
      products := initialProducts;
      sales := initialSales;
    }

    /** `addProduct`: the generated `id`, not yet in use, and the timestamp `now` are supplied
        by the caller. */
    method AddProduct(id: string, now: int, draft: ProductDraft) returns (p: Product)
      requires !HasProduct(products, id)
      modifies this
      ensures p == Product(id, draft.sku, draft.name, draft.category, draft.price,
                           draft.currentStock, draft.leadTime, now)
      ensures products == old(products) + [p]
      ensures sales == old(sales)
      ensures UniqueProductIds(old(products)) ==> UniqueProductIds(products)
    {
      p := Product(id, draft.sku, draft.name, draft.category, draft.price,
                   draft.currentStock, draft.leadTime, now);
      products := products + [p];
    }

    /** `updateProduct`: merges the patch into every product with that id; silent if none. */
    method UpdateProduct(id: string, patch: ProductPatch)
      modifies this
      ensures products == UpdateProducts(old(products), id, patch)
      ensures sales == old(sales)
    {
      products := UpdateProducts(products, id, patch);
    }

    /** `deleteProduct`: removes the product and, in cascade, its sales. */
    method DeleteProduct(id: string)
      modifies this
      ensures products == RemoveProduct(old(products), id)
      ensures sales == RemoveSalesOf(old(sales), id)
      ensures SalesHistory(sales, id) == []
    {
      products := RemoveProduct(products, id);
      sales := RemoveSalesOf(sales, id);
      RemoveSalesOfSpec(old(sales), id);
    }

    /** `addSale`: appends the sale under a caller-supplied `id` not yet in use and takes the
        quantity off the product's stock, floored at 0. */
    method AddSale(id: string, draft: SaleDraft) returns (s: Sale)
      requires forall i :: 0 <= i < |sales| ==> sales[i].id != id
      modifies this
      ensures s == Sale(id, draft.productId, draft.quantity, draft.date, draft.unitPrice)
      ensures sales == old(sales) + [s]
      ensures products == ApplySale(old(products), draft.productId, draft.quantity)
      ensures StocksNonNegative(old(products)) ==> StocksNonNegative(products)
      ensures UniqueSaleIds(old(sales)) ==> UniqueSaleIds(sales)
    {
      s := Sale(id, draft.productId, draft.quantity, draft.date, draft.unitPrice);
      sales := sales + [s];
      products := ApplySale(products, draft.productId, draft.quantity);
    }

    /** `getProductMetrics` run step by step: bucketing and back-test loops. */
    method GetProductMetrics(p: Product) returns (m: ProductWithMetrics)
      ensures m == ProductMetrics(p, sales)
    {
      var productSales := SalesOf(sales, p.id);
      var weekly := Bucketing.GroupSalesByWeek(productSales);
      var wmaForecast := Wma(weekly);
      var safetyStock := SafetyStock(weekly, p.leadTime / 7.0);
      var reorderPoint := ReorderPoint(weekly, p.leadTime / 7.0, safetyStock);
      var mape := RunBacktest(weekly);
      var status := Classify(p.currentStock, reorderPoint, safetyStock);
      m := ProductWithMetrics(p, productSales, wmaForecast, safetyStock, reorderPoint, mape, status);
    }
  }
}
