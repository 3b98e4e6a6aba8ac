/**
 * The products page: the product list loaded from the API, each product
 * labelled with its category's name, then filtered by search text and
 * category, sorted by the chosen order and laid out four cards to a row.
 */
module ProductList {
  import opened Wrappers
  import opened Text
  import opened Seqs
  import opened QtWidgets
  import opened Grid
  import ConfirmDeleteDialog

  /**
   * A product dict. Options are keys that may be missing; `categoryName` is
   * the key `load_products` adds. Prices are whole cents.
   */
  datatype Product = Product(
    id: Field, name: Option<string>, brand: Option<string>, categoryId: Field,
    priceCents: int, stockLevel: Option<int>, stock: Option<int>, categoryName: Option<string>)

  datatype Category = Category(id: Field, name: Option<string>)

  function NameOf(p: Product): string { p.name.GetOr("") }
  function BrandOf(p: Product): string { p.brand.GetOr("") }

  /** `p.get('stock_level', 0) or p.get('stock', 0)`: the stock shown and sorted on. */
  function StockKey(p: Product): (k: int)
    ensures p.stockLevel.GetOr(0) != 0 ==> k == p.stockLevel.value
    ensures p.stockLevel.GetOr(0) == 0 ==> k == p.stock.GetOr(0)
  {
    if p.stockLevel.GetOr(0) != 0 then p.stockLevel.GetOr(0) else p.stock.GetOr(0)
  }

  // ---------------------------------------------------------------------------
  // Filtering
  // ---------------------------------------------------------------------------

  /** The search test, on the lower-cased (not stripped) search text. */
  predicate MatchesSearch(searchText: string, p: Product) {
    searchText == [] || Contains(searchText, Lower(NameOf(p))) || Contains(searchText, Lower(BrandOf(p)))
  }

  /** The category test: `None` (All Categories) lets everything through. */
  predicate InCategory(selected: Field, p: Product) {
    selected.Null? || OrNull(p.categoryId) == selected
  }

  function Keeps(searchText: string, selected: Field): Product -> bool {
    p => MatchesSearch(searchText, p) && InCategory(selected, p)
  }

  // ---------------------------------------------------------------------------
  // Sorting
  // ---------------------------------------------------------------------------

  datatype SortOrder = NameAsc | NameDesc | PriceAsc | PriceDesc | StockAsc | StockDesc

  const SortOptions: seq<string> := [
    "Name (A-Z)", "Name (Z-A)", "Price (Low to High)", "Price (High to Low)",
    "Stock (Low to High)", "Stock (High to Low)"
  ]

  const SortOrders: seq<SortOrder> := [NameAsc, NameDesc, PriceAsc, PriceDesc, StockAsc, StockDesc]

  /** The chain of `in` tests on the sort combo's current text; no test matching leaves the order alone. */
  function SortOrderOf(text: string): Option<SortOrder> {
    if Contains("Name (A-Z)", text) then Some(NameAsc)
    else if Contains("Name (Z-A)", text) then Some(NameDesc)
    else if Contains("Price (Low to High)", text) then Some(PriceAsc)
    else if Contains("Price (High to Low)", text) then Some(PriceDesc)
    else if Contains("Stock (Low to High)", text) then Some(StockAsc)
    else if Contains("Stock (High to Low)", text) then Some(StockDesc)
    else None
  }

  lemma ContainsSelf(s: string)
    ensures Contains(s, s)
  {
    assert OccursAt(s, s, 0);
  }

  /** A needle whose first character never occurs in the text is not in it. */
  lemma NotContainsFirstChar(needle: string, hay: string)
    requires needle != [] && forall k | 0 <= k < |hay| :: hay[k] != needle[0]
    ensures !Contains(needle, hay)
  {
    forall k | 0 <= k <= |hay| - |needle| ensures !OccursAt(needle, hay, k) {
      assert hay[k..k + |needle|][0] == hay[k];
    }
  }

  /** A text holds a different text of its own length nowhere. */
  lemma NotContainsSameLength(needle: string, hay: string)
    requires |needle| == |hay| && needle != hay
    ensures !Contains(needle, hay)
  {
    assert hay[0..|hay|] == hay;
  }

  /** Each of the six option texts selects its own order: no earlier test in the chain matches it. */
  lemma SortOptionsSelectTheirOrder(i: nat)
    requires i < |SortOptions|
    ensures SortOrderOf(SortOptions[i]) == Some(SortOrders[i])
  {
    var opt := SortOptions;
    ContainsSelf(opt[i]);
    if i >= 1 {
      NotContainsSameLength(opt[0], opt[1]);
    }
    if i >= 2 {
      NotContainsFirstChar(opt[0], opt[i]);
      NotContainsFirstChar(opt[1], opt[i]);
    }
    if i >= 3 {
      NotContainsSameLength(opt[2], opt[i]);
    }
    if i >= 4 {
      NotContainsSameLength(opt[3], opt[i]);
    }
    if i >= 5 {
      NotContainsSameLength(opt[4], opt[i]);
    }
  }

  predicate ByNameAsc(a: Product, b: Product) { LexLe(Lower(NameOf(a)), Lower(NameOf(b))) }
  predicate ByPriceAsc(a: Product, b: Product) { a.priceCents <= b.priceCents }
  predicate ByStockAsc(a: Product, b: Product) { StockKey(a) <= StockKey(b) }

  /** The order each option sorts by; `reverse=True` flips the comparison and keeps ties in input order. */
  function Comparison(o: SortOrder): (Product, Product) -> bool {
    match o
    case NameAsc => ByNameAsc
    case NameDesc => (a: Product, b: Product) => ByNameAsc(b, a)
    case PriceAsc => ByPriceAsc
    case PriceDesc => (a: Product, b: Product) => ByPriceAsc(b, a)
    case StockAsc => ByStockAsc
    case StockDesc => (a: Product, b: Product) => ByStockAsc(b, a)
  }

  lemma ComparisonIsPreorder(o: SortOrder)
    ensures TotalPreorder(Comparison(o))
  {
    var le := Comparison(o);
    forall a: Product, b: Product
      ensures le(a, b) || le(b, a)
    {
      LexLeTotal(Lower(NameOf(a)), Lower(NameOf(b)));
    }
    forall a: Product, b: Product, c: Product | le(a, b) && le(b, c)
      ensures le(a, c)
    {
      if o == NameAsc {
        LexLeTransitive(Lower(NameOf(a)), Lower(NameOf(b)), Lower(NameOf(c)));
      } else if o == NameDesc {
        LexLeTransitive(Lower(NameOf(c)), Lower(NameOf(b)), Lower(NameOf(a)));
      }
    }
  }

  /** `filtered.sort(...)` for the option chosen, if any. */
  function SortProducts(s: seq<Product>, o: Option<SortOrder>): (r: seq<Product>)
    ensures multiset(r) == multiset(s) && |r| == |s|
    ensures o.None? ==> r == s
  {
    if o.None? then s else SortBy(s, Comparison(o.value))
  }

  /** What the grid shows: the kept products, in the chosen order. */
  function Listing(products: seq<Product>, searchText: string, selected: Field, sortText: string): seq<Product> {
    SortProducts(Filter(products, Keeps(searchText, selected)), SortOrderOf(sortText))
  }

  /**
   * The listing holds exactly the products that pass both tests, as a
   * permutation of the filtered list, which keeps the input order; it is
   * sorted by the chosen option, and products with equal keys keep their
   * input order.
   */
  lemma ListingSpec(products: seq<Product>, searchText: string, selected: Field, sortText: string, x: Product)
    ensures var keep := Keeps(searchText, selected);
      var shown := Listing(products, searchText, selected, sortText);
      && (x in shown <==> x in products && MatchesSearch(searchText, x) && InCategory(selected, x))
      && multiset(shown) == multiset(Filter(products, keep))
      && Subsequence(Filter(products, keep), products)
      && (SortOrderOf(sortText).Some? ==>
            var le := Comparison(SortOrderOf(sortText).value);
            Sorted(shown, le) && Filter(shown, EquivalentTo(x, le)) == Filter(Filter(products, keep), EquivalentTo(x, le)))
  {
    var keep := Keeps(searchText, selected);
    var filtered := Filter(products, keep);
    var shown := Listing(products, searchText, selected, sortText);
    FilterMembership(products, keep, x);
    FilterIsSubsequence(products, keep);
    assert x in shown <==> x in multiset(shown);
    assert x in filtered <==> x in multiset(filtered);
    if SortOrderOf(sortText).Some? {
      var le := Comparison(SortOrderOf(sortText).value);
      ComparisonIsPreorder(SortOrderOf(sortText).value);
      SortBySorted(filtered, le);
      SortByStable(filtered, le, x);
    }
  }

  /** With no search text and All Categories, every product is listed. */
  lemma ListingUnfiltered(products: seq<Product>, sortText: string)
    ensures multiset(Listing(products, [], Null, sortText)) == multiset(products)
  {
    var keep := Keeps([], Null);
    FilterEmpty(products, (p: Product) => !keep(p));
    assert Filter(products, keep) == products by {
      FilterAll(products, keep);
    }
  }

  lemma {:induction false} FilterAll(s: seq<Product>, p: Product -> bool)
    requires forall i | 0 <= i < |s| :: p(s[i])
    ensures Filter(s, p) == s
  {
    if s != [] {
      FilterAll(s[..|s| - 1], p);
    }
  }

  // ---------------------------------------------------------------------------
  // Category names
  // ---------------------------------------------------------------------------

  /** `{cat.get('id'): cat.get('name', 'N/A') for cat in categories}`, built category by category. */
  function CategoryMap(categories: seq<Category>): map<Field, string> {
    if categories == [] then map[]
    else
      var last := categories[|categories| - 1];
      CategoryMap(categories[..|categories| - 1])[OrNull(last.id) := last.name.GetOr("N/A")]
  }

  /** The map's keys are the categories' ids. */
  lemma {:induction false} CategoryMapKeys(categories: seq<Category>)
    ensures forall k :: k in CategoryMap(categories) <==> exists i | 0 <= i < |categories| :: OrNull(categories[i].id) == k
  {
    if categories != [] {
      var init := categories[..|categories| - 1];
      CategoryMapKeys(init);
      assert forall i | 0 <= i < |init| :: init[i] == categories[i];
    }
  }

  /** A category whose id no later category repeats gives its name to that id. */
  lemma {:induction false} CategoryMapLastWins(categories: seq<Category>, i: nat)
    requires i < |categories|
    requires forall j | i < j < |categories| :: OrNull(categories[j].id) != OrNull(categories[i].id)
    ensures OrNull(categories[i].id) in CategoryMap(categories)
    ensures CategoryMap(categories)[OrNull(categories[i].id)] == categories[i].name.GetOr("N/A")
  {
    if i < |categories| - 1 {
      var init := categories[..|categories| - 1];
      assert init[i] == categories[i];
      assert forall j | i < j < |init| :: init[j] == categories[j];
      CategoryMapLastWins(init, i);
    }
  }

  /** `product['category_name'] = category_map.get(category_id, 'Uncategorized')`. */
  function WithCategoryName(m: map<Field, string>, p: Product): (q: Product)
    ensures q == p.(categoryName := q.categoryName)
    ensures OrNull(p.categoryId) in m ==> q.categoryName == Some(m[OrNull(p.categoryId)])
    ensures OrNull(p.categoryId) !in m ==> q.categoryName == Some("Uncategorized")
  {
    var key := OrNull(p.categoryId);
    p.(categoryName := Some(if key in m then m[key] else "Uncategorized"))
  }

  function WithCategoryNames(m: map<Field, string>, products: seq<Product>): (r: seq<Product>)
    ensures |r| == |products| && forall i | 0 <= i < |products| :: r[i] == WithCategoryName(m, products[i])
  {
    seq(|products|, i requires 0 <= i < |products| => WithCategoryName(m, products[i]))
  }

  /** Every product gets a name: its category's when some category has its id, "Uncategorized" otherwise. */
  lemma CategoryNameResolved(categories: seq<Category>, p: Product)
    ensures var q := WithCategoryName(CategoryMap(categories), p);
      && q.categoryName.Some?
      && ((exists i | 0 <= i < |categories| :: OrNull(categories[i].id) == OrNull(p.categoryId)) ==>
            exists i | 0 <= i < |categories| :: q.categoryName.value == categories[i].name.GetOr("N/A"))
      && ((forall i | 0 <= i < |categories| :: OrNull(categories[i].id) != OrNull(p.categoryId)) ==>
            q.categoryName == Some("Uncategorized"))
  {
    var m := CategoryMap(categories);
    var key := OrNull(p.categoryId);
    CategoryMapKeys(categories);
    if key in m {
      var i := LastWithId(categories, key);
    }
  }

  /** The last category carrying `key`, whose name the map holds. */
  lemma LastWithId(categories: seq<Category>, key: Field) returns (i: nat)
    requires exists i | 0 <= i < |categories| :: OrNull(categories[i].id) == key
    ensures i < |categories| && OrNull(categories[i].id) == key
    ensures forall j | i < j < |categories| :: OrNull(categories[j].id) != key
    ensures key in CategoryMap(categories) && CategoryMap(categories)[key] == categories[i].name.GetOr("N/A")
  {
    var k :| 0 <= k < |categories| && OrNull(categories[k].id) == key;
    i := k;
    while i + 1 < |categories| && exists j | i < j < |categories| :: OrNull(categories[j].id) == key
      invariant k <= i < |categories| && OrNull(categories[i].id) == key
      decreases |categories| - i
    {
      var j :| i < j < |categories| && OrNull(categories[j].id) == key;
      i := j;
    }
    CategoryMapLastWins(categories, i);
  }

  /** With no categories loaded, every product is "Uncategorized". */
  lemma NoCategoriesAllUncategorized(products: seq<Product>)
    ensures forall i | 0 <= i < |products| :: WithCategoryNames(CategoryMap([]), products)[i].categoryName == Some("Uncategorized")
  {
  }

  // ---------------------------------------------------------------------------
  // Responses and the page
  // ---------------------------------------------------------------------------

  /** The `get_products` result: a dict (with or without each key), a list, anything else, or an exception. */
  datatype ProductsResponse =
    | DictResponse(products: Option<seq<Product>>, items: Option<seq<Product>>)
    | ListResponse(list: seq<Product>)
    | OtherResponse
    | Failed

  /** `response.get('products', response.get('items', []))` for a dict, the list itself, `[]` otherwise. */
  function NormaliseProducts(r: ProductsResponse): (products: seq<Product>)
    requires !r.Failed?
    ensures r.DictResponse? && r.products.Some? ==> products == r.products.value
    ensures r.DictResponse? && r.products.None? && r.items.Some? ==> products == r.items.value
    ensures r.DictResponse? && r.products.None? && r.items.None? ==> products == []
    ensures r.ListResponse? ==> products == r.list
    ensures r.OtherResponse? ==> products == []
  {
    match r
    case DictResponse(p, i) => p.GetOr(i.GetOr([]))
    case ListResponse(l) => l
    case OtherResponse => []
  }

  const AllCategoriesItem := ComboItem("All Categories", Null)

  function CategoryItem(c: Category): ComboItem {
    ComboItem(c.name.GetOr("N/A"), OrNull(c.id))
  }

  /** The category combo's entries after `load_categories`: "All Categories", then one per category. */
  function CategoryItems(categories: seq<Category>): (items: seq<ComboItem>)
    ensures |items| == |categories| + 1 && items[0] == AllCategoriesItem
    ensures forall i | 0 <= i < |categories| :: items[i + 1] == CategoryItem(categories[i])
  {
    [AllCategoriesItem] + seq(|categories|, i requires 0 <= i < |categories| => CategoryItem(categories[i]))
  }

  /** Adding the entry of category `i` extends the entries of the categories before it. */
  lemma CategoryItemsSnoc(categories: seq<Category>, i: nat)
    requires i < |categories|
    ensures CategoryItems(categories[..i + 1]) == CategoryItems(categories[..i]) + [CategoryItem(categories[i])]
  {
    var a := CategoryItems(categories[..i + 1]);
    var b := CategoryItems(categories[..i]);
    forall k | 0 <= k < i + 1
      ensures a[k] == b[k]
    {
      if k > 0 {
        assert categories[..i + 1][k - 1] == categories[..i][k - 1];
      }
    }
    assert categories[..i + 1][i] == categories[i];
    ExtendPointwise(a, b, CategoryItem(categories[i]));
  }

  /** What `delete_product` finds: the first product with that id. */
  function FindProduct(products: seq<Product>, productId: int): (r: Option<nat>)
    ensures r.None? <==> forall i | 0 <= i < |products| :: OrNull(products[i].id) != Int(productId)
    ensures r.Some? ==> r.value < |products| && OrNull(products[r.value].id) == Int(productId)
    ensures r.Some? ==> forall j | 0 <= j < r.value :: OrNull(products[j].id) != Int(productId)
  {
    if products == [] then None
    else if OrNull(products[0].id) == Int(productId) then Some(0)
    else
      var rest := FindProduct(products[1..], productId);
      assert forall i | 1 <= i < |products| :: products[i] == products[1..][i - 1];
      if rest.None? then None else Some(rest.value + 1)
  }

  datatype DeleteOutcome = NotFound | DeleteCancelled | DeleteRequest(productId: int)

  /**
   * `delete_product(product_id, name)`: the user must type
   * `str(stock_level or stock or 0)` of the first product with that id;
   * `attempts` are the texts at each press of Delete.
   */
  function DeleteProduct(products: seq<Product>, productId: int, attempts: seq<string>): (o: DeleteOutcome)
    ensures o.NotFound? <==> forall i | 0 <= i < |products| :: OrNull(products[i].id) != Int(productId)
    ensures o.DeleteRequest? ==> o.productId == productId
    ensures o.DeleteRequest? <==>
      var f := FindProduct(products, productId);
      f.Some? && exists i | 0 <= i < |attempts| :: Strip(attempts[i]) == IntToString(StockKey(products[f.value]))
  {
    match FindProduct(products, productId)
    case None => NotFound
    case Some(i) =>
      if ConfirmDeleteDialog.SessionConfirms(IntToString(StockKey(products[i])), attempts) then DeleteRequest(productId)
      else DeleteCancelled
  }

  class Page {
    var allProducts: seq<Product>
    var categories: seq<Category>
    var search: string
    var categoryCombo: ComboBox
    var sortText: string
    var cards: seq<Cell<Product>>
    var noProductsLabel: bool

    predicate Valid()
      reads this
    {
      categoryCombo.Valid()
    }

    /** The grid shows the current listing, and the empty message exactly when it is empty. */
    predicate Displayed()
      reads this
    {
      && cards == Cells(Listing(allProducts, Lower(search), categoryCombo.CurrentData(), sortText))
      && (noProductsLabel <==> cards == [])
    }

    /** `filter_products()`: filter in one pass, sort, lay out the cards. */
    method FilterProducts()
      modifies this
      ensures allProducts == old(allProducts) && categories == old(categories) && search == old(search)
      ensures categoryCombo == old(categoryCombo) && sortText == old(sortText)
      ensures Displayed()
    {
      var searchText := Lower(search);
      var selected := categoryCombo.CurrentData();
      var keep := Keeps(searchText, selected);
      var filtered := FilterLoop(allProducts, keep);
      var sorted := SortProducts(filtered, SortOrderOf(sortText));
      cards := PlaceCards(sorted);
      noProductsLabel := sorted == [];
    }

    /** `load_products()`: replace the list, label every product with its category's name, redisplay. */
    method LoadProducts(response: ProductsResponse)
      modifies this
      ensures categories == old(categories) && search == old(search)
      ensures categoryCombo == old(categoryCombo) && sortText == old(sortText)
      ensures !response.Failed? ==> allProducts == WithCategoryNames(CategoryMap(categories), NormaliseProducts(response))
      ensures !response.Failed? ==> Displayed()
      ensures response.Failed? ==> allProducts == old(allProducts) && cards == old(cards) && noProductsLabel == old(noProductsLabel)
    {
      if !response.Failed? {
        allProducts := NormaliseProducts(response);
        ResolveCategoryNames(CategoryMap(categories));
        FilterProducts();
      }
    }

    /** The loop of `load_products` that sets each product's `category_name` in place. */
    method ResolveCategoryNames(m: map<Field, string>)
      modifies this
      ensures allProducts == WithCategoryNames(m, old(allProducts))
      ensures categories == old(categories) && search == old(search)
      ensures categoryCombo == old(categoryCombo) && sortText == old(sortText)
      ensures cards == old(cards) && noProductsLabel == old(noProductsLabel)
    {
      var i := 0;
      while i < |allProducts|
        invariant 0 <= i <= |allProducts| == |old(allProducts)|
        invariant forall j | 0 <= j < i :: allProducts[j] == WithCategoryName(m, old(allProducts)[j])
        invariant forall j | i <= j < |allProducts| :: allProducts[j] == old(allProducts)[j]
        invariant categories == old(categories) && search == old(search)
        invariant categoryCombo == old(categoryCombo) && sortText == old(sortText)
        invariant cards == old(cards) && noProductsLabel == old(noProductsLabel)
      {
        allProducts := allProducts[i := WithCategoryName(m, allProducts[i])];
        i := i + 1;
      }
    }

    /** `category_combo.clear()`; a change of current index redisplays. */
    method ComboClear()
      requires Valid()
      modifies this
      ensures Valid() && categoryCombo == old(categoryCombo).Clear()
      ensures allProducts == old(allProducts) && categories == old(categories) && search == old(search) && sortText == old(sortText)
      ensures old(categoryCombo).ClearSignals() ==> Displayed()
      ensures !old(categoryCombo).ClearSignals() ==> cards == old(cards) && noProductsLabel == old(noProductsLabel)
    {
      var signals := categoryCombo.ClearSignals();
      categoryCombo := categoryCombo.Clear();
      if signals {
        FilterProducts();
      }
    }

    /** `category_combo.addItem(text, data)`; the first item becomes current, which redisplays. */
    method ComboAddItem(item: ComboItem)
      requires Valid()
      modifies this
      ensures Valid() && categoryCombo == old(categoryCombo).Add(item)
      ensures allProducts == old(allProducts) && categories == old(categories) && search == old(search) && sortText == old(sortText)
      ensures old(categoryCombo).AddSignals() ==> Displayed()
      ensures !old(categoryCombo).AddSignals() ==> cards == old(cards) && noProductsLabel == old(noProductsLabel)
    {
      var signals := categoryCombo.AddSignals();
      categoryCombo := categoryCombo.Add(item);
      if signals {
        FilterProducts();
      }
    }

    /**
     * `load_categories()`: replace the categories and refill the filter combo.
     * Refilling resets the filter to All Categories and redisplays; the
     * products' category names are NOT recomputed.
     */
    method LoadCategories(response: Option<seq<Category>>)
      requires Valid()
      modifies this
      ensures Valid() && allProducts == old(allProducts) && search == old(search) && sortText == old(sortText)
      ensures response.Some? ==> categories == response.value && categoryCombo.items == CategoryItems(categories)
      ensures response.Some? ==> categoryCombo.index == 0 && categoryCombo.CurrentData() == Null && Displayed()
      ensures response.None? ==> categories == old(categories) && categoryCombo == old(categoryCombo)
      ensures response.None? ==> cards == old(cards) && noProductsLabel == old(noProductsLabel)
    {
      if response.Some? {
        categories := response.value;
        ComboClear();
        ComboAddItem(AllCategoriesItem);
        var i := 0;
        while i < |categories|
          invariant 0 <= i <= |categories| && Valid()
          invariant allProducts == old(allProducts) && search == old(search) && sortText == old(sortText)
          invariant categories == response.value
          invariant categoryCombo.items == CategoryItems(categories[..i]) && categoryCombo.index == 0
          invariant Displayed()
        {
          CategoryItemsSnoc(categories, i);
          ComboAddItem(CategoryItem(categories[i]));
          i := i + 1;
        }
        assert categories[..i] == categories;
      }
    }

    /**
     * `__init__` as written: products are loaded while no category is known,
     * so every product is labelled "Uncategorized", and loading the
     * categories afterwards does not relabel them.
     */
    constructor Init(products: ProductsResponse, categoriesResponse: Option<seq<Category>>)
      ensures Valid() && search == [] && sortText == SortOptions[0]
      ensures !products.Failed? ==> allProducts == WithCategoryNames(map[], NormaliseProducts(products))
      ensures !products.Failed? ==> forall i | 0 <= i < |allProducts| :: allProducts[i].categoryName == Some("Uncategorized")
      ensures categoriesResponse.Some? ==> categories == categoriesResponse.value && Displayed()
    {
      allProducts := [];
      categories := [];
      search := [];
      categoryCombo := EmptyCombo();
      sortText := SortOptions[0];
      cards := [];
      noProductsLabel := false;
      new;
      LoadProducts(products);
      LoadCategories(categoriesResponse);
    }

    /** `__init__` with the categories loaded first, so each product gets its category's name. */
    constructor InitCorrected(products: ProductsResponse, categoriesResponse: Option<seq<Category>>)
      ensures Valid() && search == [] && sortText == SortOptions[0] && Displayed()
      ensures categories == categoriesResponse.GetOr([])
      ensures !products.Failed? ==> allProducts == WithCategoryNames(CategoryMap(categories), NormaliseProducts(products))
    {
      allProducts := [];
      categories := [];
      search := [];
      categoryCombo := EmptyCombo();
      sortText := SortOptions[0];
      cards := [];
      noProductsLabel := true;
      new;
      LoadCategories(categoriesResponse);
      LoadProducts(products);
      if products.Failed? {
        FilterProducts();
      }
    }
  }

  /**
   * The first load as written labels a product of category 3 "Uncategorized"
   * even though category 3 is "Drinks"; loading the categories first gives "Drinks".
   */
  lemma FirstLoadLosesCategoryNames()
    ensures var p := Product(Int(1), Some("Cola"), None, Int(3), 150, Some(10), None, None);
      var cats := [Category(Int(3), Some("Drinks"))];
      && WithCategoryName(CategoryMap([]), p).categoryName == Some("Uncategorized")
      && WithCategoryName(CategoryMap(cats), p).categoryName == Some("Drinks")
  {
    var cats := [Category(Int(3), Some("Drinks"))];
    assert OrNull(cats[0].id) == Int(3);
  }
}
