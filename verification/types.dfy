/** Record shapes of the inventory engine (src/types/index.ts). */
module Types {

  datatype Option<+T> = None | Some(value: T)

  /** A calendar date at day granularity: days since 1970-01-01 (a Thursday). */
  type Day = int

  /** Product categories: shirts, trousers and robes. */
  datatype Category = Kemeja | Celana | Gamis

  datatype Product = Product(
    id: string,
    sku: string,
    name: string,
    category: Category,
    price: real,
    currentStock: int,
    leadTime: real,       // in days
    createdAt: int        // creation timestamp
  )

  /** The fields a caller supplies to `addProduct`: a product without id and timestamp. */
  datatype ProductDraft = ProductDraft(
    sku: string,
    name: string,
    category: Category,
    price: real,
    currentStock: int,
    leadTime: real
  )

  /** A `Partial<Product>`: `None` marks a key the update object does not carry. */
  datatype ProductPatch = ProductPatch(
    id: Option<string>,
    sku: Option<string>,
    name: Option<string>,
    category: Option<Category>,
    price: Option<real>,
    currentStock: Option<int>,
    leadTime: Option<real>,
    createdAt: Option<int>
  )

  datatype Sale = Sale(
    id: string,
    productId: string,
    quantity: int,
    date: Day,
    unitPrice: real
  )

  /** The fields a caller supplies to `addSale`: a sale without id. */
  datatype SaleDraft = SaleDraft(productId: string, quantity: int, date: Day, unitPrice: real)

  datatype Status = Safe | Warning | Critical

  /** A product together with the metrics derived from its sales. Forecasts and MAPE are
      integers in hundredths (the source rounds both to two decimals). */
  datatype ProductWithMetrics = ProductWithMetrics(
    product: Product,
    salesHistory: seq<Sale>,
    wmaForecast: int,          // hundredths of a unit
    safetyStock: int,
    reorderPoint: int,
    mape: Option<int>,         // hundredths of a percent
    status: Status
  )

  datatype DashboardStats = DashboardStats(
    totalProducts: nat,
    totalSKUs: nat,
    lowStockCount: nat,
    criticalStockCount: nat,
    totalTransactions: nat,
    averageMape: int           // hundredths of a percent
  )
}
