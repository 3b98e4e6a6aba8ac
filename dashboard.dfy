/**
 * The manager dashboard's aggregation: the period filter, the per-day sales
 * totals behind the sales trend chart and the per-category product counts
 * behind the category pie chart.
 */
module Dashboard {
  import opened Wrappers
  import opened Text
  import opened Seqs
  import opened QtWidgets

  /** The period filter's options, as the combo box lists them. */
  const FilterOptions: seq<string> := ["1 Day", "7 Days", "30 Days"]

  /** `{"1 Day": 1, "7 Days": 7, "30 Days": 30}.get(text, 7)`. */
  function DaysFor(text: string): (days: int)
    ensures text == "1 Day" ==> days == 1
    ensures text == "7 Days" ==> days == 7
    ensures text == "30 Days" ==> days == 30
    ensures text !in FilterOptions ==> days == 7
  {
    if text == "1 Day" then 1
    else if text == "30 Days" then 30
    else 7
  }

  /** The three options select three different periods, and any other text the default week. */
  lemma FilterOptionsDistinct(i: int, j: int)
    requires 0 <= i < j < |FilterOptions|
    ensures DaysFor(FilterOptions[i]) != DaysFor(FilterOptions[j])
    ensures DaysFor(FilterOptions[i]) in {1, 7, 30}
  {
  }

  // Sales trend

  /** A sale's `created_at`: missing or `None`, an ISO text, or a `datetime` whose date is `day`. */
  datatype CreatedAt = NoDate | DateText(text: string) | DateObject(day: string)

  /** A sale dict; `totalAmount` is None when the key is missing. */
  datatype Sale = Sale(createdAt: CreatedAt, totalAmount: Option<real>)

  /** `s.replace('Z', '+00:00')`. */
  function ReplaceZ(s: string): (r: string)
    ensures 'Z' !in r
    ensures 'Z' !in s ==> r == s
    ensures |r| >= |s|
  {
    if s == [] then []
    else (if s[0] == 'Z' then "+00:00" else [s[0]]) + ReplaceZ(s[1..])
  }

  /**
   * The day a sale is counted under, if any. `isoDate(t)` is
   * `datetime.fromisoformat(t).date().isoformat()`, or None when parsing raises.
   */
  function SaleDay(sale: Sale, isoDate: string -> Option<string>): (day: Option<string>)
    ensures sale.createdAt.NoDate? ==> day.None?
    ensures sale.createdAt == DateText([]) ==> day.None?
    ensures sale.createdAt.DateText? && sale.createdAt.text != [] ==> day == isoDate(ReplaceZ(sale.createdAt.text))
    ensures sale.createdAt.DateObject? ==> day == Some(sale.createdAt.day)
  {
    match sale.createdAt
    case NoDate => None
    case DateText(t) => if t == [] then None else isoDate(ReplaceZ(t))
    case DateObject(d) => Some(d)
  }

  function AmountOf(sale: Sale): real {
    sale.totalAmount.GetOr(0.0)
  }

  /** The amount a sale adds to `day`'s bucket: its total when it falls on that day, otherwise nothing. */
  function OnDay(day: string, isoDate: string -> Option<string>): Sale -> real {
    s => if SaleDay(s, isoDate) == Some(day) then AmountOf(s) else 0.0
  }

  /** The total of the sales that fall on `day`. */
  function DayTotal(sales: seq<Sale>, isoDate: string -> Option<string>, day: string): real {
    SumReal(sales, OnDay(day, isoDate))
  }

  predicate HasSaleOn(sales: seq<Sale>, isoDate: string -> Option<string>, day: string) {
    exists i | 0 <= i < |sales| :: SaleDay(sales[i], isoDate) == Some(day)
  }

  predicate Distinct<T(==)>(s: seq<T>) {
    forall i, j | 0 <= i < j < |s| :: s[i] != s[j]
  }

  /** One more sale adds its amount to its own day's total and nothing to any other day's. */
  lemma DayTotalStep(sales: seq<Sale>, i: nat, isoDate: string -> Option<string>)
    requires i < |sales|
    ensures forall d :: DayTotal(sales[..i + 1], isoDate, d) == DayTotal(sales[..i], isoDate, d) + OnDay(d, isoDate)(sales[i])
  {
    assert sales[..i + 1][..i] == sales[..i];
  }

  /** One more sale adds its own day, if it has one, to the days with a sale. */
  lemma HasSaleOnStep(sales: seq<Sale>, i: nat, isoDate: string -> Option<string>)
    requires i < |sales|
    ensures forall d :: HasSaleOn(sales[..i + 1], isoDate, d) <==> HasSaleOn(sales[..i], isoDate, d) || SaleDay(sales[i], isoDate) == Some(d)
  {
    forall d | HasSaleOn(sales[..i + 1], isoDate, d)
      ensures HasSaleOn(sales[..i], isoDate, d) || SaleDay(sales[i], isoDate) == Some(d)
    {
      var k :| 0 <= k < i + 1 && SaleDay(sales[..i + 1][k], isoDate) == Some(d);
      if k < i {
        assert sales[..i][k] == sales[..i + 1][k];
      }
    }
    forall d | HasSaleOn(sales[..i], isoDate, d)
      ensures HasSaleOn(sales[..i + 1], isoDate, d)
    {
      var k :| 0 <= k < i && SaleDay(sales[..i][k], isoDate) == Some(d);
      assert sales[..i + 1][k] == sales[..i][k];
    }
    assert sales[..i + 1][i] == sales[i];
  }

  /** `daily` holds a key exactly for the days of `sales`, with that day's total; every other day totals nothing. */
  ghost predicate Aggregated(daily: map<string, real>, sales: seq<Sale>, isoDate: string -> Option<string>) {
    && (forall d :: d in daily <==> HasSaleOn(sales, isoDate, d))
    && (forall d | d in daily :: daily[d] == DayTotal(sales, isoDate, d))
    && (forall d | d !in daily :: DayTotal(sales, isoDate, d) == 0.0)
  }

  /** `daily_sales[date_key] = daily_sales.get(date_key, 0) + sale.get('total_amount', 0)` for a sale with a day. */
  function AddSale(daily: map<string, real>, sale: Sale, isoDate: string -> Option<string>): map<string, real> {
    var day := SaleDay(sale, isoDate);
    if day.Some? then daily[day.value := (if day.value in daily then daily[day.value] else 0.0) + AmountOf(sale)]
    else daily
  }

  /** Adding the next sale to the totals of the sales before it gives the totals of both. */
  lemma AggregatedStep(daily: map<string, real>, sales: seq<Sale>, i: nat, isoDate: string -> Option<string>)
    requires i < |sales| && Aggregated(daily, sales[..i], isoDate)
    ensures Aggregated(AddSale(daily, sales[i], isoDate), sales[..i + 1], isoDate)
  {
    var next := AddSale(daily, sales[i], isoDate);
    DayTotalStep(sales, i, isoDate);
    HasSaleOnStep(sales, i, isoDate);
    forall d ensures d in next <==> HasSaleOn(sales[..i + 1], isoDate, d) {
    }
    forall d | d in next ensures next[d] == DayTotal(sales[..i + 1], isoDate, d) {
    }
    forall d | d !in next ensures DayTotal(sales[..i + 1], isoDate, d) == 0.0 {
    }
  }

  /**
   * The `daily_sales` loop: the dict of totals per day (and its keys in
   * insertion order). A key is present exactly for the days some sale falls
   * on, and holds that day's total.
   */
  method AggregateDailySales(sales: seq<Sale>, isoDate: string -> Option<string>)
    returns (daily: map<string, real>, days: seq<string>)
    ensures forall d :: d in daily <==> HasSaleOn(sales, isoDate, d)
    ensures forall d | d in daily :: daily[d] == DayTotal(sales, isoDate, d)
    ensures Distinct(days) && forall d :: d in days <==> d in daily
  {
    daily := map[];
    days := [];
    var i := 0;
    while i < |sales|
      invariant 0 <= i <= |sales|
      invariant Aggregated(daily, sales[..i], isoDate)
      invariant Distinct(days) && forall d :: d in days <==> d in daily
    {
      var sale := sales[i];
      AggregatedStep(daily, sales, i, isoDate);
      var day := SaleDay(sale, isoDate);
      if day.Some? && day.value !in daily {
        days := days + [day.value];
      }
      daily := AddSale(daily, sale, isoDate);
      i := i + 1;
    }
    assert sales[..i] == sales;
  }

  predicate DayLe(a: string, b: string) {
    LexLe(a, b)
  }

  lemma DayLePreorder()
    ensures TotalPreorder(DayLe)
  {
    forall a: string, b: string
      ensures DayLe(a, b) || DayLe(b, a)
    {
      LexLeTotal(a, b);
    }
    forall a: string, b: string, c: string | DayLe(a, b) && DayLe(b, c)
      ensures DayLe(a, c)
    {
      LexLeTransitive(a, b, c);
    }
  }

  /** A sequence with the same elements (and multiplicities) as a distinct one is distinct. */
  lemma {:induction false} DistinctPermutation<T>(a: seq<T>, b: seq<T>)
    requires Distinct(a) && multiset(a) == multiset(b)
    ensures Distinct(b)
  {
    forall i, j | 0 <= i < j < |b|
      ensures b[i] != b[j]
    {
      if b[i] == b[j] {
        assert b == b[..j] + [b[j]] + b[j + 1..];
        assert b[i] in multiset(b[..j]);
        assert multiset(b)[b[i]] >= 2;
        DistinctMultiplicity(a, b[i]);
        assert false;
      }
    }
  }

  lemma {:induction false} DistinctMultiplicity<T>(a: seq<T>, x: T)
    requires Distinct(a)
    ensures multiset(a)[x] <= 1
  {
    if a != [] {
      var init := a[..|a| - 1];
      assert a == init + [a[|a| - 1]];
      assert Distinct(init);
      DistinctMultiplicity(init, x);
      if x == a[|a| - 1] {
        assert x !in init;
      }
    }
  }

  /** Sorting distinct days gives them strictly ascending, with the same elements. */
  lemma SortedDays(days: seq<string>)
    requires Distinct(days)
    ensures var dates := SortBy(days, DayLe);
      && (forall i, j | 0 <= i < j < |dates| :: LexLe(dates[i], dates[j]) && dates[i] != dates[j])
      && (forall d :: d in dates <==> d in days)
  {
    var dates := SortBy(days, DayLe);
    DayLePreorder();
    SortBySorted(days, DayLe);
    DistinctPermutation(days, dates);
    assert forall d :: d in dates <==> d in multiset(days);
  }

  /**
   * `sorted(daily_sales.keys())` and the amounts read back in that order:
   * the days strictly ascending, each day some sale falls on exactly once,
   * and `amounts[i]` the total for `dates[i]`.
   */
  method SalesSeries(sales: seq<Sale>, isoDate: string -> Option<string>)
    returns (dates: seq<string>, amounts: seq<real>)
    ensures forall i, j | 0 <= i < j < |dates| :: LexLe(dates[i], dates[j]) && dates[i] != dates[j]
    ensures forall d :: d in dates <==> HasSaleOn(sales, isoDate, d)
    ensures |amounts| == |dates|
    ensures forall i | 0 <= i < |dates| :: amounts[i] == DayTotal(sales, isoDate, dates[i])
  {
    var daily, days := AggregateDailySales(sales, isoDate);
    SortedDays(days);
    dates := SortBy(days, DayLe);
    amounts := seq(|dates|, i requires 0 <= i < |dates| => daily[dates[i]]);
  }

  /** A sale falling on some day shows up once, under that day, in the series. */
  lemma SaleIsCharted(sales: seq<Sale>, isoDate: string -> Option<string>, k: int, dates: seq<string>)
    requires 0 <= k < |sales| && SaleDay(sales[k], isoDate).Some?
    requires forall d :: d in dates <==> HasSaleOn(sales, isoDate, d)
    ensures SaleDay(sales[k], isoDate).value in dates
  {
  }

  // Category distribution

  /** A category dict: its `id` and its `name` (None when missing). */
  datatype Category = Category(id: Field, name: Option<string>)

  /** A product dict: only its `category_id` matters here. */
  datatype Product = Product(categoryId: Field)

  const Uncategorized := "Uncategorized"

  function CategoryName(c: Category): string {
    c.name.GetOr("Unknown")
  }

  /** `{cat.get('id'): cat.get('name', 'Unknown') for cat in categories}`, built one category after the other. */
  function IdToName(categories: seq<Category>): map<Field, string> {
    if categories == [] then map[]
    else
      var last := categories[|categories| - 1];
      IdToName(categories[..|categories| - 1])[last.id := CategoryName(last)]
  }

  /** The map has a key exactly for the ids of the categories. */
  lemma {:induction false} IdToNameKeys(categories: seq<Category>)
    ensures forall id :: id in IdToName(categories) <==> exists i | 0 <= i < |categories| :: categories[i].id == id
  {
    if categories != [] {
      var init := categories[..|categories| - 1];
      IdToNameKeys(init);
      assert forall i | 0 <= i < |init| :: init[i] == categories[i];
    }
  }

  /** A category whose id no later category repeats gives its name to that id. */
  lemma {:induction false} IdToNameLastWins(categories: seq<Category>, i: nat)
    requires i < |categories|
    requires forall j | i < j < |categories| :: categories[j].id != categories[i].id
    ensures categories[i].id in IdToName(categories)
    ensures IdToName(categories)[categories[i].id] == CategoryName(categories[i])
  {
    if i < |categories| - 1 {
      var init := categories[..|categories| - 1];
      assert init[i] == categories[i];
      assert forall j | i < j < |init| :: init[j] == categories[j];
      IdToNameLastWins(init, i);
    }
  }

  /** The pie slice a product is counted in: its category's name, or Uncategorized when its id is falsy or unknown. */
  function Label(p: Product, names: map<Field, string>): (l: string)
    ensures Truthy(p.categoryId) && p.categoryId in names ==> l == names[p.categoryId]
    ensures !(Truthy(p.categoryId) && p.categoryId in names) ==> l == Uncategorized
  {
    if Truthy(p.categoryId) && p.categoryId in names then names[p.categoryId] else Uncategorized
  }

  function Identity(n: int): int {
    n
  }

  /** Adding one to one element adds one to the sum. */
  lemma {:induction false} SumIntIncrement(s: seq<int>, j: int)
    requires 0 <= j < |s|
    ensures SumInt(s[j := s[j] + 1], Identity) == SumInt(s, Identity) + 1
  {
    var t := s[j := s[j] + 1];
    if j < |s| - 1 {
      assert t[..|t| - 1] == s[..|s| - 1][j := s[j] + 1];
      SumIntIncrement(s[..|s| - 1], j);
    } else {
      assert t[..|t| - 1] == s[..|s| - 1];
    }
  }

  function Sizes(counts: map<string, int>, labels: seq<string>): (sizes: seq<int>)
    requires forall l | l in labels :: l in counts
    ensures |sizes| == |labels|
    ensures forall j | 0 <= j < |labels| :: sizes[j] == counts[labels[j]]
  {
    seq(|labels|, j requires 0 <= j < |labels| => counts[labels[j]])
  }

  /** The number of products counted under `l`. */
  function CountOf(products: seq<Product>, names: map<Field, string>, l: string): nat {
    if products == [] then 0
    else
      CountOf(products[..|products| - 1], names, l) + (if Label(products[|products| - 1], names) == l then 1 else 0)
  }

  /** A label has a positive count exactly when some product is counted under it. */
  lemma {:induction false} CountPositive(products: seq<Product>, names: map<Field, string>, l: string)
    ensures CountOf(products, names, l) > 0 <==> exists i | 0 <= i < |products| :: Label(products[i], names) == l
  {
    if products != [] {
      var init := products[..|products| - 1];
      CountPositive(init, names, l);
      assert forall i | 0 <= i < |init| :: init[i] == products[i];
    }
  }

  /**
   * The counting loop's state after `products`: the tally, its keys in
   * insertion order, and the counts adding up to the products seen.
   */
  ghost predicate Counted(products: seq<Product>, names: map<Field, string>, counts: map<string, int>, labels: seq<string>) {
    && Tally(products, names, counts)
    && Distinct(labels) && (forall l :: l in labels <==> l in counts)
    && SumInt(Sizes(counts, labels), Identity) == |products|
  }

  /** `counts` holds the count of every label some product of `products` has, and no other key. */
  ghost predicate Tally(products: seq<Product>, names: map<Field, string>, counts: map<string, int>) {
    && (forall l | l in counts :: counts[l] == CountOf(products, names, l) > 0)
    && (forall l | l !in counts :: CountOf(products, names, l) == 0)
  }

  /** Counting `products[i]` adds one under its label and changes no other count. */
  lemma TallyStep(products: seq<Product>, i: int, names: map<Field, string>, counts: map<string, int>)
    requires 0 <= i < |products| && Tally(products[..i], names, counts)
    ensures var l := Label(products[i], names);
      Tally(products[..i + 1], names, counts[l := (if l in counts then counts[l] else 0) + 1])
  {
    assert products[..i + 1][..i] == products[..i];
  }

  lemma SumAgain(counts: map<string, int>, labels: seq<string>, j: int)
    requires Distinct(labels) && (forall l :: l in labels <==> l in counts)
    requires 0 <= j < |labels|
    ensures var c := counts[labels[j] := counts[labels[j]] + 1];
      SumInt(Sizes(c, labels), Identity) == SumInt(Sizes(counts, labels), Identity) + 1
  {
    var c := counts[labels[j] := counts[labels[j]] + 1];
    var before := Sizes(counts, labels);
    assert Sizes(c, labels) == before[j := before[j] + 1];
    SumIntIncrement(before, j);
  }

  lemma SumFirst(counts: map<string, int>, labels: seq<string>, l: string)
    requires Distinct(labels) && (forall l :: l in labels <==> l in counts)
    requires l !in counts
    ensures SumInt(Sizes(counts[l := 1], labels + [l]), Identity) == SumInt(Sizes(counts, labels), Identity) + 1
  {
    var before := Sizes(counts, labels);
    assert Sizes(counts[l := 1], labels + [l]) == before + [1];
    SumIntAppend(before, [1], Identity);
  }

  /** `category_counts[name] = category_counts.get(name, 0) + 1` for a label already counted. */
  lemma CountAgain(products: seq<Product>, i: int, names: map<Field, string>, counts: map<string, int>, labels: seq<string>, j: int)
    requires 0 <= i < |products| && Counted(products[..i], names, counts, labels)
    requires 0 <= j < |labels| && labels[j] == Label(products[i], names)
    ensures Counted(products[..i + 1], names, counts[labels[j] := counts[labels[j]] + 1], labels)
  {
    TallyStep(products, i, names, counts);
    SumAgain(counts, labels, j);
  }

  /** The same for a label counted for the first time: it becomes the dict's last key. */
  lemma CountFirst(products: seq<Product>, i: int, names: map<Field, string>, counts: map<string, int>, labels: seq<string>)
    requires 0 <= i < |products| && Counted(products[..i], names, counts, labels)
    requires Label(products[i], names) !in counts
    ensures var l := Label(products[i], names);
      Counted(products[..i + 1], names, counts[l := 1], labels + [l])
  {
    TallyStep(products, i, names, counts);
    SumFirst(counts, labels, Label(products[i], names));
  }

  /**
   * The labels of `products` in the order their first product comes: the
   * order in which a dict filled by the counting loop holds its keys.
   */
  function FirstLabels(products: seq<Product>, names: map<Field, string>): seq<string>
  {
    if products == [] then []
    else
      var init := FirstLabels(products[..|products| - 1], names);
      var l := Label(products[|products| - 1], names);
      if l in init then init else init + [l]
  }

  /** Each label of a product is listed once. */
  lemma {:induction false} FirstLabelsAreTheLabels(products: seq<Product>, names: map<Field, string>)
    ensures Distinct(FirstLabels(products, names))
    ensures forall l :: l in FirstLabels(products, names) <==> exists i | 0 <= i < |products| :: Label(products[i], names) == l
  {
    if products != [] {
      var n := |products| - 1;
      FirstLabelsAreTheLabels(products[..n], names);
      assert forall i | 0 <= i < n :: products[..n][i] == products[i];
    }
  }

  /** A label already listed keeps the order unchanged. */
  lemma OrderAgain(products: seq<Product>, i: int, names: map<Field, string>, labels: seq<string>)
    requires 0 <= i < |products| && labels == FirstLabels(products[..i], names)
    requires Label(products[i], names) in labels
    ensures labels == FirstLabels(products[..i + 1], names)
  {
    assert products[..i + 1][..i] == products[..i];
  }

  /** A new label goes last. */
  lemma OrderFirst(products: seq<Product>, i: int, names: map<Field, string>, labels: seq<string>)
    requires 0 <= i < |products| && labels == FirstLabels(products[..i], names)
    requires Label(products[i], names) !in labels
    ensures labels + [Label(products[i], names)] == FirstLabels(products[..i + 1], names)
  {
    assert products[..i + 1][..i] == products[..i];
  }

  /**
   * The counting loop: a dict from slice label to the number of products
   * counted under it (and its keys in insertion order). Every product adds
   * one to exactly one label, so the counts add up to the number of products.
   */
  method CountProducts(products: seq<Product>, names: map<Field, string>)
    returns (counts: map<string, int>, labels: seq<string>)
    ensures Counted(products, names, counts, labels)
    ensures labels == FirstLabels(products, names)
  {
    counts := map[];
    labels := [];
    var i := 0;
    while i < |products|
      invariant 0 <= i <= |products|
      invariant Counted(products[..i], names, counts, labels)
      invariant labels == FirstLabels(products[..i], names)
    {
      var slice := Label(products[i], names);
      if slice in counts {
        assert slice in labels;
        var j :| 0 <= j < |labels| && labels[j] == slice;
        CountAgain(products, i, names, counts, labels, j);
        OrderAgain(products, i, names, labels);
        counts := counts[slice := counts[slice] + 1];
      } else {
        assert slice !in labels;
        CountFirst(products, i, names, counts, labels);
        OrderFirst(products, i, names, labels);
        counts := counts[slice := 1];
        labels := labels + [slice];
      }
      i := i + 1;
    }
    assert products[..i] == products;
  }

  /** The labels counted are exactly those of some product; so with products, something is counted. */
  lemma CountedLabels(products: seq<Product>, names: map<Field, string>, counts: map<string, int>, labels: seq<string>)
    requires Counted(products, names, counts, labels)
    ensures forall l :: l in labels <==> exists i | 0 <= i < |products| :: Label(products[i], names) == l
    ensures products != [] ==> counts != map[]
  {
    forall l
      ensures l in counts <==> exists i | 0 <= i < |products| :: Label(products[i], names) == l
    {
      CountPositive(products, names, l);
    }
    if products != [] {
      assert Label(products[0], names) in counts;
    }
  }

  /** `for cat in categories: category_counts[cat.get('name', 'Unknown')] = 1`, starting from no counts. */
  method OnePerCategory(categories: seq<Category>) returns (counts: map<string, int>, labels: seq<string>)
    ensures Distinct(labels) && forall l :: l in labels <==> l in counts
    ensures forall l | l in counts :: counts[l] == 1
    ensures forall l :: l in counts <==> exists k | 0 <= k < |categories| :: CategoryName(categories[k]) == l
  {
    counts := map[];
    labels := [];
    var i := 0;
    while i < |categories|
      invariant 0 <= i <= |categories|
      invariant Distinct(labels) && forall l :: l in labels <==> l in counts
      invariant forall l | l in counts :: counts[l] == 1
      invariant forall l :: l in counts <==> exists k | 0 <= k < i :: CategoryName(categories[k]) == l
    {
      var name := CategoryName(categories[i]);
      if name !in counts {
        labels := labels + [name];
      }
      counts := counts[name := 1];
      i := i + 1;
    }
  }

  /** A dashboard's state: the period chosen and the two charts' series. */
  class Page {
    var currentDays: int
    var salesDates: seq<string>
    var salesAmounts: seq<real>
    var categoryLabels: seq<string>
    var categorySizes: seq<int>

    constructor ()
      ensures currentDays == 7
      ensures salesDates == [] && salesAmounts == [] && categoryLabels == [] && categorySizes == []
    {
      currentDays := 7;
      salesDates := [];
      salesAmounts := [];
      categoryLabels := [];
      categorySizes := [];
    }

    /** `on_filter_changed(text)`; the reload it starts is a request to the API. */
    method OnFilterChanged(text: string)
      modifies this
      ensures currentDays == DaysFor(text)
      ensures salesDates == old(salesDates) && salesAmounts == old(salesAmounts)
      ensures categoryLabels == old(categoryLabels) && categorySizes == old(categorySizes)
    {
      currentDays := DaysFor(text);
    }

    /** `update_sales_chart(response)` with `response.get('sales', [])` already read. */
    method UpdateSalesChart(sales: seq<Sale>, isoDate: string -> Option<string>)
      modifies this
      ensures forall i, j | 0 <= i < j < |salesDates| :: LexLe(salesDates[i], salesDates[j]) && salesDates[i] != salesDates[j]
      ensures forall d :: d in salesDates <==> HasSaleOn(sales, isoDate, d)
      ensures |salesAmounts| == |salesDates|
      ensures forall i | 0 <= i < |salesDates| :: salesAmounts[i] == DayTotal(sales, isoDate, salesDates[i])
      ensures currentDays == old(currentDays) && categoryLabels == old(categoryLabels) && categorySizes == old(categorySizes)
    {
      salesDates, salesAmounts := SalesSeries(sales, isoDate);
    }

    /**
     * `update_category_chart(data)` with the categories and products read:
     * with products, one slice per label and its product count; with none,
     * one slice of size 1 per distinct category name.
     */
    method UpdateCategoryChart(categories: seq<Category>, products: seq<Product>)
      modifies this
      ensures Distinct(categoryLabels) && |categorySizes| == |categoryLabels|
      ensures products != [] ==>
        && (forall l :: l in categoryLabels <==> exists i | 0 <= i < |products| :: Label(products[i], IdToName(categories)) == l)
        && (forall j | 0 <= j < |categoryLabels| ::
              categorySizes[j] == CountOf(products, IdToName(categories), categoryLabels[j]))
        && SumInt(categorySizes, Identity) == |products|
        && categoryLabels == FirstLabels(products, IdToName(categories))
      ensures products == [] ==>
        && (forall l :: l in categoryLabels <==> exists i | 0 <= i < |categories| :: CategoryName(categories[i]) == l)
        && (forall j | 0 <= j < |categorySizes| :: categorySizes[j] == 1)
      ensures currentDays == old(currentDays) && salesDates == old(salesDates) && salesAmounts == old(salesAmounts)
    {
      var names := IdToName(categories);
      var counts, labels := CountProducts(products, names);
      CountedLabels(products, names, counts, labels);
      if counts == map[] {
        counts, labels := OnePerCategory(categories);
      }
      categoryLabels := labels;
      categorySizes := Sizes(counts, labels);
    }
  }
}
