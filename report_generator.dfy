/**
 * `ReportGenerator`: the seven system reports. The database queries are
 * replaced by the rows they join; the range filters and the `order_by`
 * clauses become functions over those rows, and "today" is a parameter.
 * Dates are day numbers; a `datetime` is a day number and a second of that day.
 * Money and percentages are exact reals: `round(..., 2)` is not modelled.
 */
module ReportGenerator {
  import opened Wrappers
  import opened Text
  import opened Seqs

  // ---------------------------------------------------------------------------
  // Time and the date-range filter

  datatype Timestamp = Timestamp(day: int, second: int)

  /** A time of day is between 00:00:00 and 23:59:59. */
  predicate ValidTime(t: Timestamp) {
    0 <= t.second < 86400
  }

  predicate TimeLe(a: Timestamp, b: Timestamp) {
    a.day < b.day || (a.day == b.day && a.second <= b.second)
  }

  /** A bare `date` compared against a `datetime` column stands for midnight of that day. */
  function Midnight(d: int): Timestamp {
    Timestamp(d, 0)
  }

  /** `created_at >= start_date` and `created_at <= end_date` as the query compares them. */
  predicate InRangeAsWritten(t: Timestamp, start: int, end: int) {
    TimeLe(Midnight(start), t) && TimeLe(t, Midnight(end))
  }

  /** The range the reports mean: any moment of the days `start` through `end`. */
  predicate InRange(t: Timestamp, start: int, end: int) {
    start <= t.day <= end
  }

  /** The query as written keeps exactly the intended moments, except those of the end day after midnight. */
  lemma AsWrittenRange(t: Timestamp, start: int, end: int)
    requires ValidTime(t)
    ensures InRangeAsWritten(t, start, end) <==> InRange(t, start, end) && (t.day < end || t.second == 0)
  {
  }

  /** The date a report falls back to when the caller gives none: `start_date` 30 days back, `end_date` today. */
  function DefaultStart(start: Option<int>, today: int): (d: int)
    ensures start.None? ==> d == today - 30
    ensures start.Some? ==> d == start.value
  {
    start.GetOr(today - 30)
  }

  function DefaultEnd(end: Option<int>, today: int): (d: int)
    ensures end.None? ==> d == today
    ensures end.Some? ==> d == end.value
  {
    end.GetOr(today)
  }

  // ---------------------------------------------------------------------------
  // Reports 1 and 6: sales performance / detailed sales transactions

  /** One row of the Sale-SaleItem-Product-User join. */
  datatype SaleRow = SaleRow(
    saleId: int, createdAt: Timestamp, productName: string,
    quantity: int, lineTotal: real, retailerName: string)

  datatype SalesReport = SalesReport(
    reportId: int, reportName: string, start: int, end: int,
    sales: seq<SaleRow>,
    totalIncome: real, totalQuantitySold: int, totalTransactions: nat)

  function SaleInRange(start: int, end: int): SaleRow -> bool {
    (r: SaleRow) => InRange(r.createdAt, start, end)
  }

  function SaleInRangeAsWritten(start: int, end: int): SaleRow -> bool {
    (r: SaleRow) => InRangeAsWritten(r.createdAt, start, end)
  }

  /** `order_by(Sale.created_at.desc())` as a sort comparison. */
  predicate SaleNewestFirst(a: SaleRow, b: SaleRow) {
    TimeLe(b.createdAt, a.createdAt)
  }

  function LineTotal(r: SaleRow): real { r.lineTotal }
  function SaleQuantity(r: SaleRow): int { r.quantity }
  function SaleId(r: SaleRow): int { r.saleId }

  lemma SaleNewestFirstIsPreorder()
    ensures TotalPreorder(SaleNewestFirst)
  {
  }

  /** A sale made at 01:00 on the end day is dropped by the query as written and kept by the intended filter. */
  lemma EndDaySaleDropped(row: SaleRow, start: int)
    requires start <= row.createdAt.day && 0 < row.createdAt.second < 86400
    ensures Filter([row], SaleInRangeAsWritten(start, row.createdAt.day)) == []
    ensures Filter([row], SaleInRange(start, row.createdAt.day)) == [row]
  {
    assert [row][..0] == [];
  }

  /**
   * Report 1. The returned rows are the joined rows dated in the range, newest
   * first; the totals are over exactly those rows.
   */
  function SalesPerformanceReport(joined: seq<SaleRow>, startDate: Option<int>, endDate: Option<int>, today: int): (r: SalesReport)
    ensures r.reportId == 1 && r.reportName == "Sales Performance Report"
    ensures r.start == DefaultStart(startDate, today) && r.end == DefaultEnd(endDate, today)
    ensures multiset(r.sales) == multiset(Filter(joined, SaleInRange(r.start, r.end)))
    ensures forall i | 0 <= i < |r.sales| :: InRange(r.sales[i].createdAt, r.start, r.end)
    ensures Sorted(r.sales, SaleNewestFirst)
    ensures r.totalIncome == SumReal(r.sales, LineTotal)
    ensures r.totalIncome == SumReal(Filter(joined, SaleInRange(r.start, r.end)), LineTotal)
    ensures r.totalQuantitySold == SumInt(r.sales, SaleQuantity)
    ensures r.totalQuantitySold == SumInt(Filter(joined, SaleInRange(r.start, r.end)), SaleQuantity)
    ensures r.totalTransactions == |KeySet(r.sales, SaleId)|
    ensures r.totalTransactions <= |r.sales|
    ensures r.totalTransactions == 0 <==> r.sales == []
  {
    var s := DefaultStart(startDate, today);
    var e := DefaultEnd(endDate, today);
    var rows := Filter(joined, SaleInRange(s, e));
    var sorted := SortBy(rows, SaleNewestFirst);
    SaleNewestFirstIsPreorder();
    SortBySorted(rows, SaleNewestFirst);
    SumRealPermutation(sorted, rows, LineTotal);
    SumIntPermutation(sorted, rows, SaleQuantity);
    InRangeRowsInRange(rows, sorted, s, e);
    SalesReport(1, "Sales Performance Report", s, e, sorted,
                SumReal(sorted, LineTotal), SumInt(sorted, SaleQuantity), |KeySet(sorted, SaleId)|)
  }

  lemma InRangeRowsInRange(rows: seq<SaleRow>, sorted: seq<SaleRow>, s: int, e: int)
    requires forall i | 0 <= i < |rows| :: SaleInRange(s, e)(rows[i])
    requires multiset(sorted) == multiset(rows)
    ensures forall i | 0 <= i < |sorted| :: InRange(sorted[i].createdAt, s, e)
  {
    forall i | 0 <= i < |sorted|
      ensures InRange(sorted[i].createdAt, s, e)
    {
      assert sorted[i] in multiset(rows);
      var k :| 0 <= k < |rows| && rows[k] == sorted[i];
    }
  }

  /** Report 6 is report 1: same rows, same summary, and report 1's id and name. */
  function DetailedSalesTransactionReport(joined: seq<SaleRow>, startDate: Option<int>, endDate: Option<int>, today: int): (r: SalesReport)
    ensures r == SalesPerformanceReport(joined, startDate, endDate, today)
    ensures r.reportId == 1 && r.reportName == "Sales Performance Report"
  {
    SalesPerformanceReport(joined, startDate, endDate, today)
  }

  // ---------------------------------------------------------------------------
  // Report 2: category distribution

  datatype Batch = Batch(quantity: int, expiration: Option<int>)

  datatype Product = Product(
    id: int, name: string, stockLevel: int, minStockLevel: int, batches: seq<Batch>)

  datatype Category = Category(id: int, name: string, products: seq<Product>)

  datatype CategoryRow = CategoryRow(
    categoryId: int, categoryName: string, numberOfProducts: nat,
    totalStockQuantity: int, percentageShare: real)

  datatype CategoryReport = CategoryReport(
    reportId: int, reportName: string, categories: seq<CategoryRow>,
    totalCategories: nat, totalStock: int)

  function BatchQuantity(b: Batch): int { b.quantity }

  /** `sum(batch.quantity for batch in product.stock_batches)`. */
  function BatchStock(p: Product): int {
    SumInt(p.batches, BatchQuantity)
  }

  function CategoryStock(c: Category): int {
    SumInt(c.products, BatchStock)
  }

  /** Every category's products, one after the other. */
  function AllProducts(categories: seq<Category>): seq<Product> {
    if categories == [] then []
    else AllProducts(categories[..|categories| - 1]) + categories[|categories| - 1].products
  }

  /** `total_stock`: the batch stock of every product of every category. */
  function TotalStock(categories: seq<Category>): int {
    SumInt(AllProducts(categories), BatchStock)
  }

  /** The grand total is the sum of the per-category totals. */
  lemma {:induction false} TotalStockByCategory(categories: seq<Category>)
    ensures TotalStock(categories) == SumInt(categories, CategoryStock)
  {
    if categories != [] {
      var init := categories[..|categories| - 1];
      TotalStockByCategory(init);
      SumIntAppend(AllProducts(init), categories[|categories| - 1].products, BatchStock);
    }
  }

  /** `category_stock / total_stock * 100`, or 0 when the total is not positive. */
  function Share(stock: int, total: int): real {
    if total > 0 then stock as real / total as real * 100.0 else 0.0
  }

  function RowStock(r: CategoryRow): int { r.totalStockQuantity }
  function RowShare(r: CategoryRow): real { r.percentageShare }

  lemma ShareAdd(a: int, c: int, total: int)
    requires total > 0
    ensures a as real / total as real * 100.0 + Share(c, total) == (a + c) as real / total as real * 100.0
  {
    var t := total as real;
    calc {
      a as real / t * 100.0 + c as real / t * 100.0;
      (a as real + c as real) / t * 100.0;
    }
  }

  function CategoryRowFor(c: Category, total: int): CategoryRow {
    CategoryRow(c.id, c.name, |c.products|, CategoryStock(c), Share(CategoryStock(c), total))
  }

  /** The rows the loop appends: one per category, in category order. */
  function CategoryRows(categories: seq<Category>, total: int): (rows: seq<CategoryRow>)
    ensures |rows| == |categories|
    ensures forall k | 0 <= k < |rows| :: rows[k] == CategoryRowFor(categories[k], total)
  {
    if categories == [] then []
    else CategoryRows(categories[..|categories| - 1], total) + [CategoryRowFor(categories[|categories| - 1], total)]
  }

  /** The rows' stock adds up to the categories' stock. */
  lemma {:induction false} CategoryRowsStock(categories: seq<Category>, total: int)
    ensures SumInt(CategoryRows(categories, total), RowStock) == SumInt(categories, CategoryStock)
  {
    if categories != [] {
      CategoryRowsStock(categories[..|categories| - 1], total);
    }
  }

  /** The rows' shares add up to the categories' stock as a percentage of the total. */
  lemma {:induction false} CategoryRowsShares(categories: seq<Category>, total: int)
    requires total > 0
    ensures SumReal(CategoryRows(categories, total), RowShare)
         == SumInt(categories, CategoryStock) as real / total as real * 100.0
  {
    if categories != [] {
      var init := categories[..|categories| - 1];
      CategoryRowsShares(init, total);
      ShareAdd(SumInt(init, CategoryStock), CategoryStock(categories[|categories| - 1]), total);
    }
  }

  /** With the grand total, the rows' stock adds up to it and their shares to 100 (or are all 0). */
  lemma CategoryRowsTotals(categories: seq<Category>, total: int)
    requires total == TotalStock(categories)
    ensures total == SumInt(CategoryRows(categories, total), RowStock)
    ensures total <= 0 ==> forall i | 0 <= i < |categories| :: CategoryRows(categories, total)[i].percentageShare == 0.0
    ensures total > 0 ==> SumReal(CategoryRows(categories, total), RowShare) == 100.0
  {
    TotalStockByCategory(categories);
    CategoryRowsStock(categories, total);
    if total > 0 {
      CategoryRowsShares(categories, total);
      var t := total as real;
      assert t / t == 1.0;
    }
  }

  /**
   * Report 2. One row per category in order; the summary total is the sum of
   * the rows' stock; with a positive total the shares add up to exactly 100,
   * otherwise every share is 0.
   */
  method CategoryDistributionReport(categories: seq<Category>) returns (r: CategoryReport)
    ensures r.reportId == 2 && r.reportName == "Category Distribution Report"
    ensures r.totalCategories == |categories| == |r.categories|
    ensures forall i | 0 <= i < |categories| ::
      && r.categories[i].categoryId == categories[i].id
      && r.categories[i].categoryName == categories[i].name
      && r.categories[i].numberOfProducts == |categories[i].products|
      && r.categories[i].totalStockQuantity == CategoryStock(categories[i])
      && r.categories[i].percentageShare == Share(CategoryStock(categories[i]), r.totalStock)
    ensures r.totalStock == TotalStock(categories)
    ensures r.totalStock == SumInt(r.categories, RowStock)
    ensures r.totalStock <= 0 ==> forall i | 0 <= i < |r.categories| :: r.categories[i].percentageShare == 0.0
    ensures r.totalStock > 0 ==> SumReal(r.categories, RowShare) == 100.0
  {
    var total := TotalStock(categories);
    var rows: seq<CategoryRow> := [];
    var i := 0;
    while i < |categories|
      invariant 0 <= i <= |categories|
      invariant rows == CategoryRows(categories[..i], total)
    {
      assert categories[..i + 1][..i] == categories[..i];
      rows := rows + [CategoryRowFor(categories[i], total)];
      i := i + 1;
    }
    assert categories[..i] == categories;
    CategoryRowsTotals(categories, total);
    r := CategoryReport(2, "Category Distribution Report", rows, |categories|, total);
  }

  // ---------------------------------------------------------------------------
  // Users, shared by reports 3 and 7

  datatype User = User(id: int, username: string, fullName: string, role: string, hasImage: bool)

  predicate IsRetailerRole(u: User) { u.role == "retailer" || u.role == "staff" }
  predicate IsAdmin(u: User) { u.role == "admin" }
  predicate IsManager(u: User) { u.role == "manager" }

  // ---------------------------------------------------------------------------
  // Report 3: retailer performance

  datatype RetailerMetrics = RetailerMetrics(
    retailerId: int, dailyQuota: real, salesToday: real, currentStreak: int, totalSales: real)

  datatype RetailerRow = RetailerRow(
    retailerName: string, userId: int, dailyQuota: real, currentSales: real,
    quotaProgress: real, streakCount: int, totalSales: real, hasProfilePic: bool)

  datatype RetailerReport = RetailerReport(
    reportId: int, reportName: string, retailers: seq<RetailerRow>,
    totalRetailers: nat, activeToday: nat)

  /** `RetailerMetrics.query.filter_by(retailer_id=id).first()` over the metrics rows in table order. */
  function FirstMetrics(metrics: seq<RetailerMetrics>, id: int): (r: Option<RetailerMetrics>)
    ensures r.Some? ==> r.value in metrics && r.value.retailerId == id
    ensures r.None? <==> forall k | 0 <= k < |metrics| :: metrics[k].retailerId != id
  {
    if metrics == [] then None
    else if metrics[0].retailerId == id then Some(metrics[0])
    else
      var rest := FirstMetrics(metrics[1..], id);
      assert forall k | 1 <= k < |metrics| :: metrics[k] == metrics[1..][k - 1];
      rest
  }

  /** `quota_progress`: sales today as a percentage of the quota; 0 for a quota that is not positive. */
  function QuotaProgress(m: RetailerMetrics): (q: real)
    ensures m.dailyQuota <= 0.0 ==> q == 0.0
    ensures m.dailyQuota > 0.0 ==> q * m.dailyQuota == m.salesToday * 100.0
  {
    if m.dailyQuota > 0.0 then m.salesToday / m.dailyQuota * 100.0 else 0.0
  }

  predicate QuotaConsistent(row: RetailerRow) {
    && (row.dailyQuota <= 0.0 ==> row.quotaProgress == 0.0)
    && (row.dailyQuota > 0.0 ==> row.quotaProgress * row.dailyQuota == row.currentSales * 100.0)
  }

  function RetailerRowFor(u: User, m: RetailerMetrics): (row: RetailerRow)
    ensures QuotaConsistent(row)
  {
    RetailerRow(u.fullName, u.id, m.dailyQuota, m.salesToday, QuotaProgress(m),
                m.currentStreak, m.totalSales, u.hasImage)
  }

  /** The rows the loop appends: one per retailer that has a metrics record, in retailer order. */
  function RetailerRows(retailers: seq<User>, metrics: seq<RetailerMetrics>): (rows: seq<RetailerRow>)
    ensures |rows| <= |retailers|
    ensures forall k | 0 <= k < |rows| :: QuotaConsistent(rows[k])
  {
    if retailers == [] then []
    else
      var u := retailers[|retailers| - 1];
      var init := RetailerRows(retailers[..|retailers| - 1], metrics);
      match FirstMetrics(metrics, u.id)
      case Some(m) => init + [RetailerRowFor(u, m)]
      case None => init
  }

  function HasMetrics(metrics: seq<RetailerMetrics>): User -> bool {
    (u: User) => FirstMetrics(metrics, u.id).Some?
  }

  /** Exactly the retailers with a metrics record get a row. */
  lemma {:induction false} RetailerRowsCount(retailers: seq<User>, metrics: seq<RetailerMetrics>)
    ensures |RetailerRows(retailers, metrics)| == |Filter(retailers, HasMetrics(metrics))|
  {
    if retailers != [] {
      RetailerRowsCount(retailers[..|retailers| - 1], metrics);
    }
  }

  /** Every row comes from a retailer and that retailer's first metrics record. */
  lemma {:induction false} RetailerRowSource(retailers: seq<User>, metrics: seq<RetailerMetrics>, k: nat)
    returns (j: nat, m: RetailerMetrics)
    requires k < |RetailerRows(retailers, metrics)|
    ensures j < |retailers| && FirstMetrics(metrics, retailers[j].id) == Some(m)
    ensures RetailerRows(retailers, metrics)[k] == RetailerRowFor(retailers[j], m)
  {
    var init := retailers[..|retailers| - 1];
    var u := retailers[|retailers| - 1];
    if k < |RetailerRows(init, metrics)| {
      j, m := RetailerRowSource(init, metrics, k);
      assert init[j] == retailers[j];
    } else {
      j := |retailers| - 1;
      m := FirstMetrics(metrics, u.id).value;
    }
  }

  /** `key=lambda x: (x['streak_count'], x['total_sales']), reverse=True` as a sort comparison. */
  predicate RankedBefore(a: RetailerRow, b: RetailerRow) {
    a.streakCount > b.streakCount || (a.streakCount == b.streakCount && a.totalSales >= b.totalSales)
  }

  lemma RankedBeforeIsPreorder()
    ensures TotalPreorder(RankedBefore)
  {
  }

  predicate ActiveToday(r: RetailerRow) { r.currentSales > 0.0 }

  /**
   * Report 3. Rows exist only for retailers (role "retailer" or "staff") that
   * have metrics, ranked by streak then total sales, highest first.
   */
  method RetailerPerformanceReport(users: seq<User>, metrics: seq<RetailerMetrics>) returns (r: RetailerReport)
    ensures r.reportId == 3 && r.reportName == "Retailer Performance Report"
    ensures r.retailers == SortBy(RetailerRows(Filter(users, IsRetailerRole), metrics), RankedBefore)
    ensures multiset(r.retailers) == multiset(RetailerRows(Filter(users, IsRetailerRole), metrics))
    ensures |r.retailers| == |Filter(Filter(users, IsRetailerRole), HasMetrics(metrics))|
    ensures Sorted(r.retailers, RankedBefore)
    ensures forall i | 0 <= i < |r.retailers| :: QuotaConsistent(r.retailers[i])
    ensures r.totalRetailers == |Filter(users, IsRetailerRole)| >= |r.retailers|
    ensures r.activeToday == |Filter(r.retailers, ActiveToday)| <= |r.retailers|
  {
    var retailers := Filter(users, IsRetailerRole);
    var data: seq<RetailerRow> := [];
    var i := 0;
    while i < |retailers|
      invariant 0 <= i <= |retailers|
      invariant data == RetailerRows(retailers[..i], metrics)
    {
      var u := retailers[i];
      assert retailers[..i + 1][..i] == retailers[..i];
      match FirstMetrics(metrics, u.id) {
        case Some(m) =>
          data := data + [RetailerRowFor(u, m)];
        case None =>
      }
      i := i + 1;
    }
    assert retailers[..i] == retailers;
    RetailerRowsCount(retailers, metrics);
    RankedBeforeIsPreorder();
    SortBySorted(data, RankedBefore);
    var sorted := SortBy(data, RankedBefore);
    forall k | 0 <= k < |sorted|
      ensures QuotaConsistent(sorted[k])
    {
      assert sorted[k] in multiset(data);
      var j :| 0 <= j < |data| && data[j] == sorted[k];
    }
    r := RetailerReport(3, "Retailer Performance Report", sorted, |retailers|, |Filter(sorted, ActiveToday)|);
  }

  // ---------------------------------------------------------------------------
  // Report 4: low-stock and expiration alerts

  datatype Severity = Critical | Warning

  datatype AlertRow = AlertRow(
    productId: int, productName: string, currentStock: int, minStockLevel: int,
    expirationDate: Option<int>, alertStatus: string, severity: Severity)

  datatype AlertReport = AlertReport(
    reportId: int, reportName: string, alerts: seq<AlertRow>,
    totalAlerts: nat, criticalAlerts: nat, warningAlerts: nat)

  /** A batch with an expiration date on or before the cutoff that still holds stock. */
  function ExpiringBy(cutoff: int): Batch -> bool {
    (b: Batch) => b.expiration.Some? && b.expiration.value <= cutoff && b.quantity > 0
  }

  function ExpiringBatches(p: Product, cutoff: int): seq<Batch> {
    Filter(p.batches, ExpiringBy(cutoff))
  }

  function StockTags(p: Product): seq<string> {
    if p.stockLevel < p.minStockLevel then
      if p.stockLevel == 0 then ["OUT_OF_STOCK"] else ["LOW_STOCK"]
    else []
  }

  /** `alert_status` of one product. */
  function AlertTags(p: Product, cutoff: int): seq<string> {
    StockTags(p) + (if ExpiringBatches(p, cutoff) != [] then ["EXPIRING_SOON"] else [])
  }

  /** `min(b.expiration_date for b in expiring_batches)`. */
  function EarliestExpiry(bs: seq<Batch>): (d: int)
    requires bs != [] && forall i | 0 <= i < |bs| :: bs[i].expiration.Some?
    ensures exists i | 0 <= i < |bs| :: bs[i].expiration == Some(d)
    ensures forall i | 0 <= i < |bs| :: d <= bs[i].expiration.value
  {
    if |bs| == 1 then bs[0].expiration.value
    else
      var rest := EarliestExpiry(bs[1..]);
      assert forall i | 1 <= i < |bs| :: bs[i] == bs[1..][i - 1];
      if bs[0].expiration.value <= rest then bs[0].expiration.value else rest
  }

  /** The alert row of one product, when it has any alert. */
  function AlertFor(p: Product, cutoff: int): Option<AlertRow> {
    var tags := AlertTags(p, cutoff);
    if tags == [] then None
    else
      var expiring := ExpiringBatches(p, cutoff);
      var earliest := if expiring == [] then None else Some(EarliestExpiry(expiring));
      var severity := if "OUT_OF_STOCK" in tags then Critical else Warning;
      Some(AlertRow(p.id, p.name, p.stockLevel, p.minStockLevel, earliest, JoinComma(tags), severity))
  }

  /** The alerts the loop appends, in product order. */
  function AlertRows(products: seq<Product>, cutoff: int): seq<AlertRow> {
    if products == [] then []
    else
      var init := AlertRows(products[..|products| - 1], cutoff);
      match AlertFor(products[|products| - 1], cutoff)
      case Some(a) => init + [a]
      case None => init
  }

  /** One more product adds its alert, if it has one, at the end. */
  lemma AlertRowsStep(products: seq<Product>, i: int, cutoff: int)
    requires 0 <= i < |products|
    ensures var next := AlertFor(products[i], cutoff);
      AlertRows(products[..i + 1], cutoff)
      == AlertRows(products[..i], cutoff) + (if next.Some? then [next.value] else [])
  {
    assert products[..i + 1][..i] == products[..i];
  }

  /** The tag rules: OUT_OF_STOCK, LOW_STOCK and EXPIRING_SOON each hold exactly under their condition. */
  lemma AlertTagRules(p: Product, cutoff: int)
    ensures "OUT_OF_STOCK" in AlertTags(p, cutoff) <==> p.stockLevel < p.minStockLevel && p.stockLevel == 0
    ensures "LOW_STOCK" in AlertTags(p, cutoff) <==> p.stockLevel < p.minStockLevel && p.stockLevel != 0
    ensures "EXPIRING_SOON" in AlertTags(p, cutoff) <==>
      exists i | 0 <= i < |p.batches| :: p.batches[i].expiration.Some?
        && p.batches[i].expiration.value <= cutoff && p.batches[i].quantity > 0
    ensures p.stockLevel == 0 && p.minStockLevel == 0 ==> AlertTags(p, cutoff) == [] || AlertTags(p, cutoff) == ["EXPIRING_SOON"]
  {
    FilterEmpty(p.batches, ExpiringBy(cutoff));
    var tags := AlertTags(p, cutoff);
    assert "EXPIRING_SOON" in tags <==> ExpiringBatches(p, cutoff) != [];
  }

  /**
   * A product gets an alert row iff it has a tag; the row is CRITICAL iff it is
   * out of stock, and carries the earliest expiry of the expiring batches.
   */
  lemma AlertForRules(p: Product, cutoff: int)
    ensures AlertFor(p, cutoff).Some? <==> AlertTags(p, cutoff) != []
    ensures AlertFor(p, cutoff).Some? ==>
      && AlertFor(p, cutoff).value.productId == p.id
      && (AlertFor(p, cutoff).value.severity == Critical <==> "OUT_OF_STOCK" in AlertTags(p, cutoff))
      && (AlertFor(p, cutoff).value.expirationDate.Some? <==> ExpiringBatches(p, cutoff) != [])
      && AlertFor(p, cutoff).value.alertStatus != []
    ensures AlertFor(p, cutoff).Some? && AlertFor(p, cutoff).value.expirationDate.Some? ==>
      var d := AlertFor(p, cutoff).value.expirationDate.value;
      var bs := ExpiringBatches(p, cutoff);
      && (exists i | 0 <= i < |bs| :: bs[i].expiration == Some(d))
      && (forall i | 0 <= i < |bs| :: d <= bs[i].expiration.value)
  {
    var tags := AlertTags(p, cutoff);
    if tags != [] {
      assert tags[0] != [];
    }
  }

  /** The alerts are exactly the products with a tag, in product order. */
  lemma {:induction false} AlertRowsMembers(products: seq<Product>, cutoff: int)
    ensures |AlertRows(products, cutoff)| == |Filter(products, (p: Product) => AlertTags(p, cutoff) != [])|
    ensures forall k | 0 <= k < |AlertRows(products, cutoff)| :: AlertRows(products, cutoff)[k].alertStatus != []
  {
    if products != [] {
      var init := products[..|products| - 1];
      AlertRowsMembers(init, cutoff);
      AlertForRules(products[|products| - 1], cutoff);
    }
  }

  predicate IsCritical(a: AlertRow) { a.severity == Critical }
  predicate IsWarning(a: AlertRow) { a.severity == Warning }

  /** `today + timedelta(days=days_ahead)`: the last expiration date that raises an alert. */
  function Cutoff(today: int, daysAhead: int): int { today + daysAhead }

  /** The loop over the products joined with their batches, collecting their alert rows. */
  method CollectAlerts(products: seq<Product>, cutoff: int) returns (alerts: seq<AlertRow>)
    ensures alerts == AlertRows(products, cutoff)
  {
    alerts := [];
    var i := 0;
    while i < |products|
      invariant 0 <= i <= |products|
      invariant alerts == AlertRows(products[..i], cutoff)
    {
      var next := AlertFor(products[i], cutoff);
      AlertRowsStep(products, i, cutoff);
      if next.Some? {
        alerts := alerts + [next.value];
      }
      i := i + 1;
    }
    assert products[..i] == products;
  }

  /** Report 4. The summary splits the alerts into critical and warning ones. */
  method LowStockAndExpirationAlertReport(products: seq<Product>, daysAhead: int, today: int) returns (r: AlertReport)
    ensures r.reportId == 4 && r.reportName == "Low-Stock and Expiration Alert Report"
    ensures r.alerts == AlertRows(products, Cutoff(today, daysAhead))
    ensures r.totalAlerts == |r.alerts|
    ensures r.criticalAlerts == |Filter(r.alerts, IsCritical)|
    ensures r.warningAlerts == |Filter(r.alerts, IsWarning)|
    ensures r.criticalAlerts + r.warningAlerts == r.totalAlerts
  {
    var alerts := CollectAlerts(products, Cutoff(today, daysAhead));
    FilterPartition(alerts, IsCritical, IsWarning);
    r := AlertReport(4, "Low-Stock and Expiration Alert Report", alerts, |alerts|,
                     |Filter(alerts, IsCritical)|, |Filter(alerts, IsWarning)|);
    assert r.alerts == alerts;
  }

  // ---------------------------------------------------------------------------
  // Report 5: managerial activity log

  /** One row of the ProductLog-Product-User join. */
  datatype LogRow = LogRow(
    logId: int, productName: string, actionType: string,
    managerId: int, managerName: string, managerRole: string,
    logTime: Timestamp, notes: Option<string>)

  datatype ActivityReport = ActivityReport(
    reportId: int, reportName: string, start: int, end: int,
    logs: seq<LogRow>, totalActions: nat, uniqueManagers: nat)

  function ManagerLogInRange(start: int, end: int): LogRow -> bool {
    (l: LogRow) => (l.managerRole == "admin" || l.managerRole == "manager") && InRange(l.logTime, start, end)
  }

  predicate LogNewestFirst(a: LogRow, b: LogRow) {
    TimeLe(b.logTime, a.logTime)
  }

  lemma LogNewestFirstIsPreorder()
    ensures TotalPreorder(LogNewestFirst)
  {
  }

  function ManagerId(l: LogRow): int { l.managerId }

  /** Report 5: admin and manager actions in the range, newest first. */
  function ManagerialActivityLogReport(joined: seq<LogRow>, startDate: Option<int>, endDate: Option<int>, today: int): (r: ActivityReport)
    ensures r.reportId == 5 && r.reportName == "Managerial Activity Log Report"
    ensures r.start == DefaultStart(startDate, today) && r.end == DefaultEnd(endDate, today)
    ensures multiset(r.logs) == multiset(Filter(joined, ManagerLogInRange(r.start, r.end)))
    ensures forall i | 0 <= i < |r.logs| :: ManagerLogInRange(r.start, r.end)(r.logs[i])
    ensures Sorted(r.logs, LogNewestFirst)
    ensures r.totalActions == |r.logs|
    ensures r.uniqueManagers == |KeySet(r.logs, ManagerId)| && r.uniqueManagers <= r.totalActions
    ensures r.uniqueManagers == 0 <==> r.totalActions == 0
  {
    var s := DefaultStart(startDate, today);
    var e := DefaultEnd(endDate, today);
    var rows := Filter(joined, ManagerLogInRange(s, e));
    var sorted := SortBy(rows, LogNewestFirst);
    LogNewestFirstIsPreorder();
    SortBySorted(rows, LogNewestFirst);
    forall i | 0 <= i < |sorted|
      ensures ManagerLogInRange(s, e)(sorted[i])
    {
      assert sorted[i] in multiset(rows);
      var k :| 0 <= k < |rows| && rows[k] == sorted[i];
    }
    ActivityReport(5, "Managerial Activity Log Report", s, e, sorted, |sorted|, |KeySet(sorted, ManagerId)|)
  }

  // ---------------------------------------------------------------------------
  // Report 7: user accounts

  datatype UsersReport = UsersReport(
    reportId: int, reportName: string, users: seq<User>,
    totalUsers: nat, admins: nat, managers: nat, retailers: nat)

  /** `order_by(User.full_name)` as a sort comparison (code-point order). */
  predicate ByFullName(a: User, b: User) {
    LexLe(a.fullName, b.fullName)
  }

  lemma ByFullNameIsPreorder()
    ensures TotalPreorder(ByFullName)
  {
    forall a: User, b: User
      ensures ByFullName(a, b) || ByFullName(b, a)
    {
      LexLeTotal(a.fullName, b.fullName);
    }
    forall a: User, b: User, c: User | ByFullName(a, b) && ByFullName(b, c)
      ensures ByFullName(a, c)
    {
      LexLeTransitive(a.fullName, b.fullName, c.fullName);
    }
  }

  /** Report 7: every user, ordered by full name, with role counts that never exceed the total. */
  function UserAccountsReport(users: seq<User>): (r: UsersReport)
    ensures r.reportId == 7 && r.reportName == "User Accounts Report"
    ensures multiset(r.users) == multiset(users) && Sorted(r.users, ByFullName)
    ensures r.totalUsers == |users|
    ensures r.admins == |Filter(users, IsAdmin)|
    ensures r.managers == |Filter(users, IsManager)|
    ensures r.retailers == |Filter(users, IsRetailerRole)|
    ensures r.admins + r.managers + r.retailers <= r.totalUsers
  {
    var sorted := SortBy(users, ByFullName);
    ByFullNameIsPreorder();
    SortBySorted(users, ByFullName);
    FilterCountPermutation(sorted, users, IsAdmin);
    FilterCountPermutation(sorted, users, IsManager);
    FilterCountPermutation(sorted, users, IsRetailerRole);
    FilterDisjoint3(sorted, IsAdmin, IsManager, IsRetailerRole);
    UsersReport(7, "User Accounts Report", sorted, |sorted|,
                |Filter(sorted, IsAdmin)|, |Filter(sorted, IsManager)|, |Filter(sorted, IsRetailerRole)|)
  }
}
