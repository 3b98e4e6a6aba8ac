/**
 * The product form dialog: adding a product or editing one, with its
 * category list, spin boxes and the payload `save_product` sends.
 * Prices are counted in hundredths: the price spin box has two decimals.
 */
module ProductForm {
  import opened Wrappers
  import opened Text
  import opened QtWidgets

  /** A category dict from `get_categories()`. */
  datatype Category = Category(id: Field, name: Option<string>)

  /** The product dict being edited; None is a missing key. `price` is the API's number of whole units. */
  datatype ProductData = ProductData(
    id: Field, name: Option<string>, brand: Option<string>, price: Option<int>,
    stockLevel: Option<int>, stock: Option<int>, minStockLevel: Option<int>,
    details: Option<string>, categoryId: Field, expirationDate: Option<string>, imagePath: Option<string>)

  const SelectCategoryItem := ComboItem("Select Category...", Null)

  const DefaultMinStock := 5

  /**
   * The category combo box after `load_categories()`: the "Select Category..."
   * entry, then one entry per category. The box has a placeholder text, and
   * Qt 6 leaves a box with a placeholder at index -1 when items are added to
   * it empty, so no entry is current and the placeholder text is shown.
   */
  function CategoryCombo(categories: seq<Category>): (c: ComboBox)
    ensures c.Valid() && c.index == -1 && c.CurrentData() == Null && |c.items| == |categories| + 1
    ensures c.items[0] == SelectCategoryItem
    ensures forall i | 0 <= i < |categories| ::
      c.items[i + 1] == ComboItem(categories[i].name.GetOr("N/A"), OrNull(categories[i].id))
  {
    ComboBox([SelectCategoryItem] + seq(|categories|, i requires 0 <= i < |categories| =>
      ComboItem(categories[i].name.GetOr("N/A"), OrNull(categories[i].id))), -1)
  }

  /** The price box: 0.01 to 999999.99, `setValue(0.00)` clamped up to 0.01. */
  function NewPriceBox(): (s: SpinBox)
    ensures s.Valid() && s == SpinBox(1, 99999999, 1)
  {
    SpinBox(0, 9999, 0).SetMinimum(1).SetMaximum(99999999).SetValue(0)
  }

  function NewStockBox(): (s: SpinBox)
    ensures s.Valid() && s == SpinBox(0, 999999, 0)
  {
    NewSpinBox().SetMinimum(0).SetMaximum(999999).SetValue(0)
  }

  function NewMinStockBox(): (s: SpinBox)
    ensures s.Valid() && s == SpinBox(0, 9999, DefaultMinStock)
  {
    NewSpinBox().SetMinimum(0).SetMaximum(9999).SetValue(DefaultMinStock)
  }

  /** `setValue(float(p.get('price', 0)))` on a two-decimal box: the price in hundredths. */
  function LoadedPrice(p: ProductData): int {
    p.price.GetOr(0) * 100
  }

  /** `get('stock_level', 0) or get('stock', 0)`. */
  function LoadedStock(p: ProductData): (n: int)
    ensures p.stockLevel.GetOr(0) != 0 ==> n == p.stockLevel.value
    ensures p.stockLevel.GetOr(0) == 0 ==> n == p.stock.GetOr(0)
  {
    if p.stockLevel.GetOr(0) != 0 then p.stockLevel.value else p.stock.GetOr(0)
  }

  /** Why `save_product` refuses, in the order it checks. */
  datatype FormRejection = NameRequired | CategoryRequired | PriceNotPositive

  /**
   * The fields sent. For an update, `stockLevel` and `imageBase64` are sent
   * only when Some; a create passes them even when None.
   */
  datatype Payload = Payload(
    name: string, brand: Option<string>, categoryId: int, price: int, minStockLevel: int,
    details: Option<string>, expirationDate: string, stockLevel: Option<int>, imageBase64: Option<string>)

  datatype SaveRequest =
    | Rejected(reason: FormRejection)
    | ImageUnreadable
    | CreateProduct(payload: Payload)
    | UpdateProduct(productId: Field, payload: Payload)

  /** The image sent: the uploaded one, else the file at `image_path` (`fileBase64`, None when it cannot be read). */
  function ImageToSend(imageBase64: Option<string>, imagePath: Option<string>, fileBase64: Option<string>): Option<Option<string>> {
    if imageBase64.Some? && imageBase64.value != [] then Some(imageBase64)
    else if imagePath.Some? && imagePath.value != [] then (if fileBase64.Some? then Some(fileBase64) else None)
    else Some(None)
  }

  /** What `save_product` does with the form's contents. */
  function SaveRequestFor(
    editing: Option<ProductData>, nameText: string, brandText: string, categoryData: Field, price: int,
    minStock: int, detailsText: string, expirationDate: string, stock: int,
    imageBase64: Option<string>, imagePath: Option<string>, fileBase64: Option<string>): SaveRequest
  {
    if IsBlank(nameText) then Rejected(NameRequired)
    else if !Truthy(categoryData) then Rejected(CategoryRequired)
    else if price <= 0 then Rejected(PriceNotPositive)
    else
      var image := ImageToSend(imageBase64, imagePath, fileBase64);
      if image.None? then ImageUnreadable
      else
        var payload := Payload(Strip(nameText), StripOrNone(brandText), categoryData.value, price, minStock,
                               StripOrNone(detailsText), expirationDate, if stock > 0 then Some(stock) else None, image.value);
        if editing.None? then CreateProduct(payload)
        else UpdateProduct(editing.value.id, payload.(imageBase64 := if image.value.Some? && image.value.value != [] then image.value else None))
  }

  /** The checks `save_product` makes, in order, and the payload it builds once they pass. */
  lemma SaveRequestRules(
    editing: Option<ProductData>, nameText: string, brandText: string, categoryData: Field, price: int,
    minStock: int, detailsText: string, expirationDate: string, stock: int,
    imageBase64: Option<string>, imagePath: Option<string>, fileBase64: Option<string>, r: SaveRequest)
    requires r == SaveRequestFor(editing, nameText, brandText, categoryData, price, minStock, detailsText,
                                 expirationDate, stock, imageBase64, imagePath, fileBase64)
    ensures IsBlank(nameText) ==> r.Rejected? && r.reason.NameRequired?
    ensures !IsBlank(nameText) && !Truthy(categoryData) ==> r.Rejected? && r.reason.CategoryRequired?
    ensures !IsBlank(nameText) && Truthy(categoryData) && price <= 0 ==> r.Rejected? && r.reason.PriceNotPositive?
    ensures r.CreateProduct? || r.UpdateProduct? ==>
      && !IsBlank(nameText) && Truthy(categoryData) && price > 0
      && r.payload.name == Strip(nameText) && r.payload.brand == StripOrNone(brandText)
      && r.payload.categoryId == categoryData.value && r.payload.price == price
      && r.payload.minStockLevel == minStock && r.payload.details == StripOrNone(detailsText)
      && r.payload.expirationDate == expirationDate
      && (r.payload.stockLevel.Some? <==> stock > 0) && (stock > 0 ==> r.payload.stockLevel.value == stock)
    ensures r.CreateProduct? ==> editing.None?
    ensures r.UpdateProduct? ==> editing.Some? && r.productId == editing.value.id
    ensures r.UpdateProduct? && r.payload.imageBase64.Some? ==> r.payload.imageBase64.value != []
  {
  }

  datatype SaveOutcome = SaveRefused(reason: FormRejection) | SaveFailed | Saved(request: SaveRequest)

  /** `findData(category_id)` and `setCurrentIndex` when the id is set and listed; otherwise the box is left alone. */
  function SelectCategory(combo: ComboBox, id: Field): (c: ComboBox)
    ensures c.items == combo.items
    ensures Truthy(id) && FindData(combo.items, id) >= 0 ==> c.index == FindData(combo.items, id)
    ensures !(Truthy(id) && FindData(combo.items, id) >= 0) ==> c.index == combo.index
  {
    if Truthy(id) && FindData(combo.items, id) >= 0 then combo.(index := FindData(combo.items, id)) else combo
  }

  /** The expiration date edit after loading: the product's date when `QDate.fromString` accepts it. */
  function LoadedDate(p: ProductData, current: string, validDate: string -> bool): (d: string)
    ensures p.expirationDate.Some? && p.expirationDate.value != [] && validDate(p.expirationDate.value) ==> d == p.expirationDate.value
    ensures !(p.expirationDate.Some? && p.expirationDate.value != [] && validDate(p.expirationDate.value)) ==> d == current
  {
    if p.expirationDate.Some? && p.expirationDate.value != [] && validDate(p.expirationDate.value) then p.expirationDate.value
    else current
  }

  /** The image path after loading: the product's when it has a non-empty one. */
  function LoadedImage(p: ProductData, current: Option<string>): Option<string> {
    if p.imagePath.Some? && p.imagePath.value != [] then p.imagePath else current
  }

  class Form {
    const productData: Option<ProductData>
    const isEditMode: bool
    var nameText: string
    var brandText: string
    var detailsText: string
    var categoryCombo: ComboBox
    var price: SpinBox
    var stock: SpinBox
    var minStock: SpinBox
    var expirationDate: string
    var imagePath: Option<string>
    var imageBase64: Option<string>
    var accepted: bool

    /** The spin boxes keep their ranges; the price never drops below 0.01. */
    predicate Valid()
      reads this
    {
      && isEditMode == productData.Some?
      && categoryCombo.Valid()
      && price.Valid() && price.minimum == 1 && price.maximum == 99999999
      && stock.Valid() && stock.minimum == 0 && stock.maximum == 999999
      && minStock.Valid() && minStock.minimum == 0 && minStock.maximum == 9999
    }

    /**
     * `ProductFormDialog(product_data)`: the widgets at their defaults
     * (`aYearFromToday` is the clock's part), the categories loaded
     * (`categories` None when the request fails), then in edit mode the
     * product's values; `validDate` says whether `QDate.fromString` accepts a text.
     */
    constructor (productData: Option<ProductData>, categories: Option<seq<Category>>, aYearFromToday: string,
                 validDate: string -> bool)
      ensures Valid() && this.productData == productData && (isEditMode <==> productData.Some?)
      ensures categories.Some? ==> categoryCombo.items == CategoryCombo(categories.value).items
      ensures categories.None? ==> categoryCombo.items == []
      ensures productData.None? ==>
        && nameText == [] && brandText == [] && detailsText == []
        && price.value == 1 && stock.value == 0 && minStock.value == DefaultMinStock
        && expirationDate == aYearFromToday && categoryCombo.index == -1
      ensures productData.Some? ==> var p := productData.value;
        && nameText == p.name.GetOr("") && brandText == p.brand.GetOr("") && detailsText == p.details.GetOr("")
        && price.value == price.Clamp(LoadedPrice(p))
        && stock.value == stock.Clamp(LoadedStock(p))
        && minStock.value == minStock.Clamp(p.minStockLevel.GetOr(DefaultMinStock))
        && (Truthy(p.categoryId) && FindData(categoryCombo.items, p.categoryId) >= 0 ==>
              categoryCombo.index == FindData(categoryCombo.items, p.categoryId))
        && (!(Truthy(p.categoryId) && FindData(categoryCombo.items, p.categoryId) >= 0) ==>
              categoryCombo.index == -1)
        && (p.expirationDate.Some? && p.expirationDate.value != [] && validDate(p.expirationDate.value) ==>
              expirationDate == p.expirationDate.value)
        && (!(p.expirationDate.Some? && p.expirationDate.value != [] && validDate(p.expirationDate.value)) ==>
              expirationDate == aYearFromToday)
        && imagePath == (if p.imagePath.Some? && p.imagePath.value != [] then p.imagePath else None)
      ensures imageBase64.None? && !accepted
    {
      this.productData := productData;
      isEditMode := productData.Some?;
      nameText, brandText, detailsText := [], [], [];
      categoryCombo := EmptyCombo();
      price := NewPriceBox();
      stock := NewStockBox();
      minStock := NewMinStockBox();
      expirationDate := aYearFromToday;
      imagePath, imageBase64 := None, None;
      accepted := false;
      new;
      if categories.Some? {
        categoryCombo := CategoryCombo(categories.value);
      }
      if productData.Some? {
        LoadProductData(validDate);
      }
    }

    /**
     * `load_product_data()`. The API's price p is given to
     * `setValue(float(p))`, so the box holds p units, that is 100 * p hundredths.
     */
    method LoadProductData(validDate: string -> bool)
      requires Valid() && productData.Some?
      modifies this
      ensures Valid() && imageBase64 == old(imageBase64) && accepted == old(accepted)
      ensures var p := productData.value;
        && nameText == p.name.GetOr("") && brandText == p.brand.GetOr("") && detailsText == p.details.GetOr("")
        && price.value == price.Clamp(LoadedPrice(p))
        && stock.value == stock.Clamp(LoadedStock(p))
        && minStock.value == minStock.Clamp(p.minStockLevel.GetOr(DefaultMinStock))
        && categoryCombo.items == old(categoryCombo.items)
        && (Truthy(p.categoryId) && FindData(categoryCombo.items, p.categoryId) >= 0 ==>
              categoryCombo.index == FindData(categoryCombo.items, p.categoryId))
        && (!(Truthy(p.categoryId) && FindData(categoryCombo.items, p.categoryId) >= 0) ==>
              categoryCombo.index == old(categoryCombo.index))
        && (p.expirationDate.Some? && p.expirationDate.value != [] && validDate(p.expirationDate.value) ==>
              expirationDate == p.expirationDate.value)
        && (!(p.expirationDate.Some? && p.expirationDate.value != [] && validDate(p.expirationDate.value)) ==>
              expirationDate == old(expirationDate))
        && imagePath == (if p.imagePath.Some? && p.imagePath.value != [] then p.imagePath else old(imagePath))
    {
      var p := productData.value;
      var combo := SelectCategory(categoryCombo, p.categoryId);
      var date := LoadedDate(p, expirationDate, validDate);
      var image := LoadedImage(p, imagePath);
      nameText, brandText, detailsText := p.name.GetOr(""), p.brand.GetOr(""), p.details.GetOr("");
      price, stock, minStock := price.SetValue(LoadedPrice(p)), stock.SetValue(LoadedStock(p)),
                                minStock.SetValue(p.minStockLevel.GetOr(DefaultMinStock));
      categoryCombo, expirationDate, imagePath := combo, date, image;
    }

    /** `upload_image()` with the chosen file: over 5MB is refused; otherwise its path and base64 text are kept. */
    method UploadImage(path: string, size: int, base64: string)
      requires Valid()
      modifies this
      ensures Valid()
      ensures path != [] && size <= 5 * 1024 * 1024 ==> imagePath == Some(path) && imageBase64 == Some(base64)
      ensures !(path != [] && size <= 5 * 1024 * 1024) ==> imagePath == old(imagePath) && imageBase64 == old(imageBase64)
      ensures nameText == old(nameText) && price == old(price) && categoryCombo == old(categoryCombo)
    {
      if path != [] && size <= 5 * 1024 * 1024 {
        imagePath := Some(path);
        imageBase64 := Some(base64);
      }
    }

    /** `remove_image()`. */
    method RemoveImage()
      requires Valid()
      modifies this
      ensures Valid() && imagePath.None? && imageBase64.None?
      ensures nameText == old(nameText) && price == old(price) && categoryCombo == old(categoryCombo)
    {
      imagePath, imageBase64 := None, None;
    }

    /**
     * `save_product()`; `fileBase64` is the file at `image_path` read as
     * base64 (None when it cannot be read) and `apiOk` whether the call
     * succeeds. Because the price box never goes below 0.01, the price check
     * never refuses.
     */
    method SaveProduct(fileBase64: Option<string>, apiOk: bool) returns (o: SaveOutcome)
      requires Valid()
      modifies this
      ensures Valid()
      ensures var r := SaveRequestFor(productData, nameText, brandText, categoryCombo.CurrentData(), price.value,
                                      minStock.value, detailsText, expirationDate, stock.value, imageBase64, imagePath, fileBase64);
        && (r.Rejected? ==> o == SaveRefused(r.reason) && accepted == old(accepted))
        && (r.ImageUnreadable? ==> o == SaveFailed && accepted == old(accepted))
        && ((r.CreateProduct? || r.UpdateProduct?) ==>
              (apiOk ==> o == Saved(r) && accepted) && (!apiOk ==> o == SaveFailed && accepted == old(accepted)))
      ensures o != SaveRefused(PriceNotPositive)
      ensures nameText == old(nameText) && price == old(price) && categoryCombo == old(categoryCombo)
      ensures imagePath == old(imagePath) && imageBase64 == old(imageBase64)
    {
      var r := SaveRequestFor(productData, nameText, brandText, categoryCombo.CurrentData(), price.value,
                              minStock.value, detailsText, expirationDate, stock.value, imageBase64, imagePath, fileBase64);
      if r.Rejected? {
        o := SaveRefused(r.reason);
      } else if r.ImageUnreadable? || !apiOk {
        o := SaveFailed;
      } else {
        o := Saved(r);
        accepted := true;
      }
    }
  }

  /**
   * A product loaded for editing and saved unchanged is sent with its price
   * in hundredths: `int(value * 100)` of the p units the box was given.
   */
  lemma LoadedPriceSentInHundredths(p: ProductData, nameText: string, brandText: string, categoryData: Field,
                                    minStock: int, detailsText: string, expirationDate: string, stock: int,
                                    imageBase64: Option<string>, imagePath: Option<string>, fileBase64: Option<string>)
    requires p.price.Some? && 1 <= p.price.value <= 999999
    ensures var box := NewPriceBox().SetValue(p.price.GetOr(0) * 100);
      var r := SaveRequestFor(Some(p), nameText, brandText, categoryData, box.value, minStock, detailsText,
                              expirationDate, stock, imageBase64, imagePath, fileBase64);
      r.UpdateProduct? ==> r.payload.price == 100 * p.price.value
  {
  }
}
