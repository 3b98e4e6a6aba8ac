/**
 * The product detail page: its batch combo box and the three batch buttons
 * that follow the selected batch, the dialogs for adding, editing and
 * disposing stock, and the guards in front of each batch action.
 *
 * API calls are not made here: each action yields the request it would send
 * (or why it sends none). What the user does in a modal dialog is an input.
 */
module ProductDetail {
  import opened Wrappers
  import opened Text
  import opened QtWidgets
  import opened BatchRecords
  import ConfirmDeleteDialog

  /** `text.strip() or default`: the stripped text, or the default when nothing but whitespace was typed. */
  function ReasonOr(text: string, default: string): (r: string)
    ensures IsBlank(text) ==> r == default
    ensures !IsBlank(text) ==> r == Strip(text) && r != []
    ensures default != [] ==> r != []
  {
    var s := Strip(text);
    if s == [] then default else s
  }

  const DisposeDefaultReason := "Disposed"
  const AddDefaultReason := "Stock added"
  const EditDefaultReason := "Updated"

  // ---------------------------------------------------------------------------
  // Dialogs
  // ---------------------------------------------------------------------------

  /** `DisposeBatchDialog`: the batch's id and available quantity, the quantity spin box and the reason text. */
  datatype DisposeDialog = DisposeDialog(batchId: Field, available: int, quantity: SpinBox, reasonText: string) {
    predicate Valid() {
      quantity.Valid()
    }

    /** The user sets the spin box (clamped by Qt) and types a reason. */
    function Enter(value: int, reason: string): (d: DisposeDialog)
      requires Valid()
      ensures d.Valid() && d.batchId == batchId && d.available == available && d.reasonText == reason
      ensures d.quantity.minimum == quantity.minimum && d.quantity.maximum == quantity.maximum
    {
      DisposeDialog(batchId, available, quantity.SetValue(value), reason)
    }

    /** `get_data()`. */
    function GetData(): (data: DisposeData)
      ensures data.quantity == quantity.value
      ensures data.reason == ReasonOr(reasonText, DisposeDefaultReason) && data.reason != []
    {
      DisposeData(quantity.value, ReasonOr(reasonText, DisposeDefaultReason))
    }
  }

  datatype DisposeData = DisposeData(quantity: int, reason: string)

  /**
   * The dialog as `__init__` leaves it: `setMinimum(1)`, `setMaximum(available)`,
   * `setValue(1)` on a fresh spin box. With nothing available Qt lowers the
   * minimum to the maximum, so the range collapses to the available quantity.
   */
  function NewDisposeDialog(batch: BatchDict): (d: DisposeDialog)
    ensures d.Valid() && d.batchId == BatchIdOf(batch) && d.available == QuantityOf(batch) && d.reasonText == []
    ensures d.available >= 1 ==>
      d.quantity.minimum == 1 && d.quantity.maximum == d.available && d.quantity.value == 1
    ensures d.available < 1 ==>
      d.quantity.minimum == d.available && d.quantity.maximum == d.available && d.quantity.value == d.available
  {
    var q := QuantityOf(batch);
    DisposeDialog(BatchIdOf(batch), q, NewSpinBox().SetMinimum(1).SetMaximum(q).SetValue(1), [])
  }

  /** Whatever the user enters, the disposed quantity lies in `1..available` when anything is available. */
  lemma DisposeQuantityBounded(batch: BatchDict, value: int, reason: string)
    ensures var data := NewDisposeDialog(batch).Enter(value, reason).GetData();
      && (QuantityOf(batch) >= 1 ==> 1 <= data.quantity <= QuantityOf(batch))
      && (1 <= value <= QuantityOf(batch) ==> data.quantity == value)
      && (QuantityOf(batch) < 1 ==> data.quantity == QuantityOf(batch))
  {
  }

  /** `AddBatchDialog`: quantity spin box, expiration date (as `yyyy-MM-dd` text) and reason text. */
  datatype AddDialog = AddDialog(quantity: SpinBox, expirationDate: string, reasonText: string) {
    predicate Valid() {
      quantity.Valid()
    }

    function Enter(value: int, expiration: Option<string>, reason: string): (d: AddDialog)
      requires Valid()
      ensures d.Valid() && d.quantity.minimum == quantity.minimum && d.quantity.maximum == quantity.maximum
      ensures d.expirationDate == expiration.GetOr(expirationDate) && d.reasonText == reason
    {
      AddDialog(quantity.SetValue(value), expiration.GetOr(expirationDate), reason)
    }

    function GetData(): (data: AddData)
      ensures data.quantity == quantity.value && data.expirationDate == expirationDate
      ensures data.reason == ReasonOr(reasonText, AddDefaultReason) && data.reason != []
    {
      AddData(quantity.value, expirationDate, ReasonOr(reasonText, AddDefaultReason))
    }
  }

  datatype AddData = AddData(quantity: int, expirationDate: string, reason: string)

  /** The dialog as `__init__` leaves it: quantity 1 in `1..999999`; `aYearFromToday` is the clock's part. */
  function NewAddDialog(aYearFromToday: string): (d: AddDialog)
    ensures d.Valid() && d.quantity.minimum == 1 && d.quantity.maximum == 999999 && d.quantity.value == 1
    ensures d.expirationDate == aYearFromToday && d.reasonText == []
  {
    AddDialog(NewSpinBox().SetMinimum(1).SetMaximum(999999).SetValue(1), aYearFromToday, [])
  }

  /** `EditBatchDialog`: only an expiration date and a reason; there is no quantity to edit. */
  datatype EditDialog = EditDialog(expirationDate: string, reasonText: string) {
    function Enter(expiration: Option<string>, reason: Option<string>): (d: EditDialog)
      ensures d.expirationDate == expiration.GetOr(expirationDate)
      ensures d.reasonText == reason.GetOr(reasonText)
    {
      EditDialog(expiration.GetOr(expirationDate), reason.GetOr(reasonText))
    }

    function GetData(): (data: EditData)
      ensures data.expirationDate == expirationDate
      ensures data.reason == ReasonOr(reasonText, EditDefaultReason) && data.reason != []
    {
      EditData(expirationDate, ReasonOr(reasonText, EditDefaultReason))
    }
  }

  datatype EditData = EditData(expirationDate: string, reason: string)

  /**
   * `load_batch_data()`: a stored expiration date is shown when it is a
   * non-empty string that `QDate.fromString` accepts (`isDate`), otherwise
   * the date edit keeps its initial date `unset`; the stored reason, or "".
   */
  function NewEditDialog(batch: BatchDict, unset: string, isDate: string -> bool): (d: EditDialog)
    ensures batch.expiration.ExpText? && batch.expiration.text != [] && isDate(batch.expiration.text) ==>
      d.expirationDate == batch.expiration.text
    ensures !(batch.expiration.ExpText? && batch.expiration.text != [] && isDate(batch.expiration.text)) ==>
      d.expirationDate == unset
    ensures d.reasonText == batch.reason.GetOr([])
  {
    var date :=
      if batch.expiration.ExpText? && batch.expiration.text != [] && isDate(batch.expiration.text)
      then batch.expiration.text else unset;
    EditDialog(date, batch.reason.GetOr([]))
  }

  /** Saving the edit dialog untouched sends back the stored date (when readable) and the stored reason, stripped. */
  lemma EditUntouchedKeepsBatch(batch: BatchDict, unset: string, isDate: string -> bool)
    requires batch.expiration.ExpText? && batch.expiration.text != [] && isDate(batch.expiration.text)
    requires batch.reason.Some? && !IsBlank(batch.reason.value)
    ensures NewEditDialog(batch, unset, isDate).Enter(None, None).GetData()
      == EditData(batch.expiration.text, Strip(batch.reason.value))
  {
  }

  // ---------------------------------------------------------------------------
  // The batch buttons
  // ---------------------------------------------------------------------------

  datatype Buttons = Buttons(edit: bool, dispose: bool, delete: bool)

  const AllDisabled := Buttons(false, false, false)

  /**
   * `on_batch_selected`: with a (non-empty) batch selected, Edit is enabled,
   * Dispose iff stock remains and Delete iff none does; otherwise all three are
   * disabled.
   */
  function ButtonsFor(selected: Option<BatchDict>): (b: Buttons)
    ensures b.edit <==> selected.Some? && DictTruthy(selected.value)
    ensures b.edit ==> (b.dispose <==> QuantityOf(selected.value) > 0)
    ensures b.edit ==> (b.delete <==> QuantityOf(selected.value) == 0)
    ensures !b.edit ==> b == AllDisabled
  {
    match selected
    case Some(batch) =>
      if DictTruthy(batch) then
        var q := QuantityOf(batch);
        Buttons(true, q > 0, q == 0)
      else AllDisabled
    case None => AllDisabled
  }

  /** Dispose and Delete are never enabled together, and either implies Edit. */
  lemma ButtonsExclusive(selected: Option<BatchDict>)
    ensures var b := ButtonsFor(selected);
      !(b.dispose && b.delete) && (b.dispose || b.delete ==> b.edit)
  {
  }

  const NoBatchesItem := ComboItem("No batches available", Null)
  const ErrorItem := ComboItem("Error loading batches", Null)

  /** What the combo box lists after a successful load of `batches`. */
  function LoadedItems(batches: seq<BatchDict>, formatDate: string -> Option<string>): (items: seq<ComboItem>)
    ensures batches == [] ==> items == [NoBatchesItem]
    ensures batches != [] ==> items == BatchItems(batches, formatDate)
    ensures items != []
  {
    if batches == [] then [NoBatchesItem] else BatchItems(batches, formatDate)
  }

  // ---------------------------------------------------------------------------
  // The page
  // ---------------------------------------------------------------------------

  /**
   * The page's batch state. The combo box's `currentIndexChanged` is connected
   * to `on_batch_selected`, so the buttons are recomputed whenever `clear()` or
   * `addItem()` changes the current index, provided they exist by then.
   */
  class Page {
    var batches: seq<BatchDict>
    var combo: ComboBox
    var buttons: Buttons
    /** Whether `init_ui` has created the Edit, Dispose and Delete buttons. */
    var buttonsCreated: bool
    /** Whether `on_batch_selected` has raised `AttributeError` by reaching for a button not yet created. */
    var slotRaised: bool

    predicate Valid()
      reads this
    {
      combo.Valid()
    }

    /** The buttons describe the batch `get_selected_batch()` would return. */
    predicate Consistent()
      reads this
    {
      buttons == ButtonsFor(SelectedBatch(batches, combo.index))
    }

    /**
     * `__init__` as written. `init_ui` connects `currentIndexChanged` and runs
     * the first `load_batches()` with `response` before it creates the batch
     * buttons. The first `addItem` makes item 0 current and runs
     * `on_batch_selected`, which raises on the missing `edit_batch_btn`
     * whether or not a batch is selected. The buttons are then created
     * disabled, although batch 0 is selected.
     */
    constructor (response: BatchResponse, formatDate: string -> Option<string>)
      ensures Valid() && buttonsCreated && slotRaised
      ensures combo.index == 0 && buttons == AllDisabled
      ensures !response.Failed? ==> batches == NormaliseBatches(response) && combo.items == LoadedItems(batches, formatDate)
      ensures response.Failed? ==> batches == [] && combo.items == [ErrorItem]
    {
      batches := [];
      combo := EmptyCombo();
      buttons := AllDisabled;
      buttonsCreated := false;
      slotRaised := false;
      new;
      LoadBatches(response, formatDate);
      buttons, buttonsCreated := AllDisabled, true;
    }

    /** `__init__` with the batch buttons created, disabled, before the first load. */
    constructor Corrected(response: BatchResponse, formatDate: string -> Option<string>)
      ensures Valid() && buttonsCreated && !slotRaised
      ensures combo.index == 0 && Consistent()
      ensures !response.Failed? ==> batches == NormaliseBatches(response) && combo.items == LoadedItems(batches, formatDate)
      ensures response.Failed? ==> batches == [] && combo.items == [ErrorItem] && buttons == AllDisabled
    {
      batches := [];
      combo := EmptyCombo();
      buttons := AllDisabled;
      buttonsCreated := true;
      slotRaised := false;
      new;
      LoadBatchesCorrected(response, formatDate);
    }

    /** `get_selected_batch()`. */
    function GetSelectedBatch(): (r: Option<BatchDict>)
      reads this
      ensures r.Some? <==> 0 <= combo.index < |batches|
      ensures r.Some? ==> r.value == batches[combo.index]
    {
      SelectedBatch(batches, combo.index)
    }

    /** `on_batch_selected(index)`: recompute the buttons, or raise when they do not exist yet. */
    method OnBatchSelected()
      modifies this
      ensures batches == old(batches) && combo == old(combo) && buttonsCreated == old(buttonsCreated)
      ensures buttonsCreated ==> buttons == ButtonsFor(SelectedBatch(batches, combo.index)) && slotRaised == old(slotRaised)
      ensures !buttonsCreated ==> buttons == old(buttons) && slotRaised
    {
      if buttonsCreated {
        var selected := SelectedBatch(batches, combo.index);
        buttons := ButtonsFor(selected);
      } else {
        slotRaised := true;
      }
    }

    /** `batch_combo.clear()`, with the slot it may trigger. */
    method ComboClear()
      requires Valid()
      modifies this
      ensures Valid() && batches == old(batches) && combo == old(combo).Clear() && buttonsCreated == old(buttonsCreated)
      ensures old(combo).ClearSignals() && buttonsCreated ==> buttons == AllDisabled
      ensures !(old(combo).ClearSignals() && buttonsCreated) ==> buttons == old(buttons)
      ensures slotRaised == (old(slotRaised) || (old(combo).ClearSignals() && !buttonsCreated))
    {
      var signals := combo.ClearSignals();
      combo := combo.Clear();
      if signals {
        OnBatchSelected();
      }
    }

    /** `batch_combo.addItem(text, data)`, with the slot it may trigger. */
    method ComboAddItem(item: ComboItem)
      requires Valid()
      modifies this
      ensures Valid() && batches == old(batches) && combo == old(combo).Add(item) && buttonsCreated == old(buttonsCreated)
      ensures old(combo).AddSignals() && buttonsCreated ==> buttons == ButtonsFor(SelectedBatch(batches, 0))
      ensures !(old(combo).AddSignals() && buttonsCreated) ==> buttons == old(buttons)
      ensures slotRaised == (old(slotRaised) || (old(combo).AddSignals() && !buttonsCreated))
    {
      var signals := combo.AddSignals();
      combo := combo.Add(item);
      if signals {
        OnBatchSelected();
      }
    }

    /** The loop of `load_batches` over a non-empty batch list, after `clear()`. */
    method AddBatchItems(formatDate: string -> Option<string>)
      requires Valid() && combo.items == [] && batches != []
      modifies this
      ensures Valid() && batches == old(batches) && buttonsCreated == old(buttonsCreated)
      ensures combo.items == BatchItems(batches, formatDate) && combo.index == 0
      ensures buttonsCreated ==> Consistent() && slotRaised == old(slotRaised)
      ensures !buttonsCreated ==> buttons == old(buttons) && slotRaised
    {
      var i := 0;
      while i < |batches|
        invariant 0 <= i <= |batches| && Valid() && batches == old(batches) && buttonsCreated == old(buttonsCreated)
        invariant combo.items == BatchItems(batches[..i], formatDate)
        invariant combo.index == if i == 0 then -1 else 0
        invariant i > 0 && buttonsCreated ==> Consistent()
        invariant buttonsCreated ==> slotRaised == old(slotRaised)
        invariant !buttonsCreated ==> buttons == old(buttons) && (i > 0 ==> slotRaised)
      {
        BatchItemsSnoc(batches, i, formatDate);
        ComboAddItem(BatchItem(batches[i], formatDate));
        i := i + 1;
      }
      assert batches[..i] == batches;
    }

    /**
     * `load_batches()` as written. On success the batches are replaced before
     * the combo box is refilled, so the buttons end up describing the first
     * new batch. When the API call raises, the combo box is refilled while the
     * OLD batches are still in place and only then are they dropped: the
     * buttons are left describing the previous first batch. Before the
     * buttons exist, the slot raises instead and the buttons are untouched.
     */
    method LoadBatches(response: BatchResponse, formatDate: string -> Option<string>)
      requires Valid()
      modifies this
      ensures Valid() && combo.index == 0 && buttonsCreated == old(buttonsCreated)
      ensures !response.Failed? ==> batches == NormaliseBatches(response) && combo.items == LoadedItems(batches, formatDate)
      ensures response.Failed? ==> batches == [] && combo.items == [ErrorItem]
      ensures buttonsCreated && !response.Failed? ==> Consistent()
      ensures buttonsCreated && response.Failed? ==> buttons == ButtonsFor(SelectedBatch(old(batches), 0))
      ensures buttonsCreated ==> slotRaised == old(slotRaised)
      ensures !buttonsCreated ==> buttons == old(buttons) && slotRaised
    {
      if response.Failed? {
        ComboClear();
        ComboAddItem(ErrorItem);
        batches := [];
      } else {
        batches := NormaliseBatches(response);
        ComboClear();
        if batches != [] {
          AddBatchItems(formatDate);
        } else {
          ComboAddItem(NoBatchesItem);
        }
      }
    }

    /** `load_batches()` with the batches dropped before the combo box is refilled on failure. */
    method LoadBatchesCorrected(response: BatchResponse, formatDate: string -> Option<string>)
      requires Valid() && buttonsCreated
      modifies this
      ensures Valid() && buttonsCreated && slotRaised == old(slotRaised)
      ensures combo.index == 0 && Consistent()
      ensures !response.Failed? ==> batches == NormaliseBatches(response)
      ensures !response.Failed? ==> combo.items == LoadedItems(batches, formatDate)
      ensures response.Failed? ==> batches == [] && combo.items == [ErrorItem] && buttons == AllDisabled
    {
      if response.Failed? {
        batches := [];
        ComboClear();
        ComboAddItem(ErrorItem);
      } else {
        LoadBatches(response, formatDate);
      }
    }
  }

  /**
   * The page as `__init__` leaves it is not consistent whenever the first
   * batch loaded is a non-empty dict: batch 0 is selected, so Edit should be
   * enabled, yet every button was created disabled.
   */
  lemma FirstLoadLeavesButtonsDisabled(response: BatchResponse)
    requires !response.Failed? && NormaliseBatches(response) != []
    requires DictTruthy(NormaliseBatches(response)[0])
    ensures ButtonsFor(SelectedBatch(NormaliseBatches(response), 0)).edit
    ensures ButtonsFor(SelectedBatch(NormaliseBatches(response), 0)) != AllDisabled
  {
  }

  /** The failure path as written: one batch of 5 units was loaded, the reload fails, and Edit and Dispose stay enabled with no batch listed. */
  lemma StaleButtonsAfterFailedLoad()
    ensures var old_ := [BatchDict(Int(7), Absent, Absent, Some(5), ExpAbsent, None, false)];
      && ButtonsFor(SelectedBatch(old_, 0)) == Buttons(true, true, false)
      && ButtonsFor(SelectedBatch([], 0)) == AllDisabled
  {
  }

  // ---------------------------------------------------------------------------
  // Batch actions: the request each one sends, or why it sends none
  // ---------------------------------------------------------------------------

  /** What the user does in the dispose dialog: None for Cancel, otherwise the quantity set and the reason typed. */
  datatype DisposeEntry = DisposeEntry(value: int, reason: string)

  datatype DisposeOutcome =
    | DisposeNoSelection
    | DisposeCancelled
    | DisposeRequest(batchId: Field, quantity: int, reason: string)

  /** `dispose_batch()`. */
  function DisposeBatch(selected: Option<BatchDict>, entry: Option<DisposeEntry>): (o: DisposeOutcome)
    ensures o.DisposeNoSelection? <==> selected.None? || !DictTruthy(selected.value)
    ensures o.DisposeCancelled? <==> selected.Some? && DictTruthy(selected.value) && entry.None?
    ensures o.DisposeRequest? ==>
      var d := NewDisposeDialog(selected.value).Enter(entry.value.value, entry.value.reason).GetData();
      o == DisposeRequest(BatchIdOf(selected.value), d.quantity, d.reason)
  {
    if selected.None? || !DictTruthy(selected.value) then DisposeNoSelection
    else if entry.None? then DisposeCancelled
    else
      var d := NewDisposeDialog(selected.value).Enter(entry.value.value, entry.value.reason).GetData();
      DisposeRequest(BatchIdOf(selected.value), d.quantity, d.reason)
  }

  /** While the Dispose button is enabled, any request it leads to takes between 1 and the batch's units. */
  lemma DisposeEnabledBoundsRequest(selected: Option<BatchDict>, entry: Option<DisposeEntry>)
    requires ButtonsFor(selected).dispose
    ensures var o := DisposeBatch(selected, entry);
      o.DisposeRequest? ==> 1 <= o.quantity <= QuantityOf(selected.value) && o.reason != []
  {
    var o := DisposeBatch(selected, entry);
    if o.DisposeRequest? {
      DisposeQuantityBounded(selected.value, entry.value.value, entry.value.reason);
    }
  }

  datatype EditEntry = EditEntry(expiration: Option<string>, reason: Option<string>)

  datatype EditOutcome =
    | EditNoSelection
    | EditCancelled
    | UpdateRequest(batchId: Field, expirationDate: string, reason: string)

  /** `edit_batch()`: the update carries an expiration date and a reason, never a quantity. */
  function EditBatch(selected: Option<BatchDict>, entry: Option<EditEntry>, unset: string, isDate: string -> bool): (o: EditOutcome)
    ensures o.EditNoSelection? <==> selected.None? || !DictTruthy(selected.value)
    ensures o.EditCancelled? <==> selected.Some? && DictTruthy(selected.value) && entry.None?
    ensures o.UpdateRequest? ==>
      var d := NewEditDialog(selected.value, unset, isDate).Enter(entry.value.expiration, entry.value.reason).GetData();
      o == UpdateRequest(BatchIdOf(selected.value), d.expirationDate, d.reason)
  {
    if selected.None? || !DictTruthy(selected.value) then EditNoSelection
    else if entry.None? then EditCancelled
    else
      var d := NewEditDialog(selected.value, unset, isDate).Enter(entry.value.expiration, entry.value.reason).GetData();
      UpdateRequest(BatchIdOf(selected.value), d.expirationDate, d.reason)
  }

  datatype AddEntry = AddEntry(value: int, expiration: Option<string>, reason: string)

  datatype AddOutcome = AddCancelled | AddRequest(quantity: int, expirationDate: string, reason: string)

  /** `add_batch()`. */
  function AddBatch(aYearFromToday: string, entry: Option<AddEntry>): (o: AddOutcome)
    ensures o.AddCancelled? <==> entry.None?
    ensures o.AddRequest? ==> 1 <= o.quantity <= 999999 && o.reason != []
    ensures o.AddRequest? && 1 <= entry.value.value <= 999999 ==> o.quantity == entry.value.value
    ensures o.AddRequest? && entry.value.expiration.None? ==> o.expirationDate == aYearFromToday
    ensures o.AddRequest? && IsBlank(entry.value.reason) ==> o.reason == AddDefaultReason
  {
    match entry
    case None => AddCancelled
    case Some(e) =>
      var d := NewAddDialog(aYearFromToday).Enter(e.value, e.expiration, e.reason).GetData();
      AddRequest(d.quantity, d.expirationDate, d.reason)
  }

  datatype DeleteOutcome =
    | DeleteNoSelection
    | DeleteRefused
    | DeleteCancelled
    | DeleteRequest(batchId: Field)

  /**
   * `delete_batch()`: a batch with stock left is refused before any dialog;
   * otherwise `ConfirmDeleteDialog` asks for the batch's quantity, and
   * `attempts` are what the user had typed at each press of Delete.
   */
  function DeleteBatch(selected: Option<BatchDict>, attempts: seq<string>): (o: DeleteOutcome)
    ensures o.DeleteNoSelection? <==> selected.None? || !DictTruthy(selected.value)
    ensures o.DeleteRefused? <==> selected.Some? && DictTruthy(selected.value) && QuantityOf(selected.value) > 0
    ensures o.DeleteRequest? <==>
      && selected.Some? && DictTruthy(selected.value) && QuantityOf(selected.value) <= 0
      && exists i | 0 <= i < |attempts| :: Strip(attempts[i]) == IntToString(QuantityOf(selected.value))
    ensures o.DeleteRequest? ==> o.batchId == BatchIdOf(selected.value)
  {
    if selected.None? || !DictTruthy(selected.value) then DeleteNoSelection
    else
      var q := QuantityOf(selected.value);
      if q > 0 then DeleteRefused
      else if ConfirmDeleteDialog.SessionConfirms(IntToString(q), attempts) then DeleteRequest(BatchIdOf(selected.value))
      else DeleteCancelled
  }

  /** While the Delete button is enabled, the guard lets the batch through and the user has to type "0". */
  lemma DeleteEnabledNeedsZero(selected: Option<BatchDict>, attempts: seq<string>)
    requires ButtonsFor(selected).delete
    ensures var o := DeleteBatch(selected, attempts);
      && !o.DeleteNoSelection? && !o.DeleteRefused?
      && (o.DeleteRequest? <==> exists i | 0 <= i < |attempts| :: Strip(attempts[i]) == "0")
  {
    assert IntToString(0) == "0";
  }

  /** A batch that still holds stock is never deleted, whatever is typed. */
  lemma NonEmptyBatchNeverDeleted(batch: BatchDict, attempts: seq<string>)
    requires QuantityOf(batch) > 0
    ensures !DeleteBatch(Some(batch), attempts).DeleteRequest?
  {
  }

  /** `delete_product()`'s stock text: `str(stock_level or stock)`, each read with default 0. */
  function ProductStockText(stockLevel: Field, stock: Field): (s: string)
    ensures Truthy(stockLevel) ==> s == IntToString(stockLevel.value)
    ensures !Truthy(stockLevel) && stock.Absent? ==> s == "0"
    ensures !Truthy(stockLevel) && stock.Null? ==> s == "None"
    ensures !Truthy(stockLevel) && stock.Int? ==> s == IntToString(stock.value)
  {
    FieldText(Or(GetOr(stockLevel, 0), GetOr(stock, 0)))
  }

  /** The stock text is never blank and is already stripped, so typing exactly what is shown confirms. */
  lemma ProductStockTextTypable(stockLevel: Field, stock: Field)
    ensures var s := ProductStockText(stockLevel, stock);
      s != [] && Strip(s) == s
  {
    var s := ProductStockText(stockLevel, stock);
    var f := Or(GetOr(stockLevel, 0), GetOr(stock, 0));
    if f.Int? {
      IntToStringUnpadded(f.value);
    } else {
      assert s == "None";
    }
    StripUnpadded(s);
  }

  /** The Delete Product button exists only for an admin or a manager (role compared in lower case). */
  function CanDeleteProduct(currentUserRole: Option<string>): (ok: bool)
    ensures ok <==> currentUserRole.Some? && (Lower(currentUserRole.value) == "admin" || Lower(currentUserRole.value) == "manager")
  {
    match currentUserRole
    case None => false
    case Some(role) => Lower(role) in ["admin", "manager"]
  }
}
