/**
 * `StockBatchSelector`: a combo box of a product's batches with Edit, Dispose
 * and Delete buttons that are enabled together exactly when the last load
 * listed at least one batch, whatever the batches' quantities.
 */
module StockBatchSelector {
  import opened Wrappers
  import opened Text
  import opened QtWidgets
  import opened BatchRecords

  const NoBatchesItem := ComboItem("No batches available", Null)
  const ErrorItem := ComboItem("Error loading batches", Null)

  /** What the combo box lists after a successful load of `batches`. */
  function LoadedItems(batches: seq<BatchDict>, formatDate: string -> Option<string>): (items: seq<ComboItem>)
    ensures batches == [] ==> items == [NoBatchesItem]
    ensures batches != [] ==> items == BatchItems(batches, formatDate)
  {
    if batches == [] then [NoBatchesItem] else BatchItems(batches, formatDate)
  }

  /** No batch's entry reads like the error entry: batch texts start with "Batch ". */
  lemma ErrorItemIsNoBatch(b: BatchDict, formatDate: string -> Option<string>)
    ensures BatchItem(b, formatDate) != ErrorItem
  {
    DisplayTextShape(b, formatDate);
    var t := DisplayText(b, formatDate);
    assert t[..6] == "Batch ";
    assert ErrorItem.text[..6] == "Error ";
  }

  /** What an action that hands the batch to the parent page does. */
  datatype ForwardOutcome = ForwardNoSelection | ForwardToParent(batch: BatchDict) | ParentLacksDialog

  /** `edit_batch()` / `dispose_batch()`: hand the selected (non-empty) batch to the parent's dialog when it has one. */
  function ForwardSelected(selected: Option<BatchDict>, parentHasDialog: bool): (o: ForwardOutcome)
    ensures o.ForwardNoSelection? <==> selected.None? || !DictTruthy(selected.value)
    ensures o.ForwardToParent? <==> selected.Some? && DictTruthy(selected.value) && parentHasDialog
    ensures o.ForwardToParent? ==> o.batch == selected.value
  {
    if selected.None? || !DictTruthy(selected.value) then ForwardNoSelection
    else if parentHasDialog then ForwardToParent(selected.value)
    else ParentLacksDialog
  }

  /** `delete_batch()` up to its dialog: the text the user must type is the batch's quantity, with no guard on it. */
  function DeleteConfirmationText(selected: Option<BatchDict>): (t: Option<string>)
    ensures t.None? <==> selected.None? || !DictTruthy(selected.value)
    ensures t.Some? ==> t.value == IntToString(QuantityOf(selected.value)) && Strip(t.value) == t.value
  {
    if selected.None? || !DictTruthy(selected.value) then None
    else
      var q := QuantityOf(selected.value);
      IntToStringInjective(q, q);
      Some(IntToString(q))
  }

  class Selector {
    var batches: seq<BatchDict>
    var combo: ComboBox
    var currentBatchId: Field
    var editEnabled: bool
    var disposeEnabled: bool
    var deleteEnabled: bool
    /** The ids announced through `batch_changed`, in order. */
    var announced: seq<int>

    predicate Valid()
      reads this
    {
      combo.Valid()
    }

    /** The three buttons are switched together. */
    predicate ButtonsTogether()
      reads this
    {
      editEnabled == disposeEnabled == deleteEnabled
    }

    /** Every batch held is the one listed at its position, so the selection is the batch on screen. */
    predicate ShowsBatches(formatDate: string -> Option<string>)
      reads this
    {
      batches == [] || combo.items == BatchItems(batches, formatDate)
    }

    /**
     * `__init__`: the empty state of lines 42-45 and `init_ui` (the Edit,
     * Dispose and Delete buttons created disabled), then the first
     * `load_batches()` with `response`.
     */
    constructor (response: BatchResponse, formatDate: string -> Option<string>)
      ensures Valid() && combo.index == 0 && ButtonsTogether() && ShowsBatches(formatDate)
      ensures !response.Failed? ==> batches == NormaliseBatches(response) && combo.items == LoadedItems(batches, formatDate)
      ensures response.Failed? ==> batches == [] && combo.items == [ErrorItem] && !editEnabled
      ensures editEnabled <==> batches != []
      ensures !response.Failed? && batches != [] && Truthy(BatchIdOf(batches[0])) ==>
        currentBatchId == BatchIdOf(batches[0]) && announced == [currentBatchId.value]
      ensures !(!response.Failed? && batches != [] && Truthy(BatchIdOf(batches[0]))) ==>
        currentBatchId == Null && announced == []
    {
      batches := [];
      combo := EmptyCombo();
      currentBatchId := Null;
      editEnabled, disposeEnabled, deleteEnabled := false, false, false;
      announced := [];
      new;
      LoadBatches(response, formatDate);
    }

    /** `get_selected_batch()`. */
    function GetSelectedBatch(): (r: Option<BatchDict>)
      reads this
      ensures r.Some? <==> 0 <= combo.index < |batches|
      ensures r.Some? ==> r.value == batches[combo.index]
    {
      SelectedBatch(batches, combo.index)
    }

    /** With the batches shown, the batch selected is the one whose entry is current. */
    lemma SelectionIsShown(formatDate: string -> Option<string>)
      requires ShowsBatches(formatDate) && GetSelectedBatch().Some?
      ensures combo.index < |combo.items| && combo.items[combo.index] == BatchItem(GetSelectedBatch().value, formatDate)
    {
    }

    /** `on_batch_selected(index)`: a truthy item id becomes `current_batch_id` and is announced. */
    method OnBatchSelected(index: int)
      modifies this
      ensures batches == old(batches) && combo == old(combo)
      ensures editEnabled == old(editEnabled) && disposeEnabled == old(disposeEnabled) && deleteEnabled == old(deleteEnabled)
      ensures var changes := index >= 0 && batches != [] && 0 <= index < |combo.items| && Truthy(combo.items[index].data);
        && (changes ==> currentBatchId == combo.items[index].data && announced == old(announced) + [currentBatchId.value])
        && (!changes ==> currentBatchId == old(currentBatchId) && announced == old(announced))
    {
      if index >= 0 && batches != [] {
        var data := if index < |combo.items| then combo.items[index].data else Null;
        if Truthy(data) {
          currentBatchId := data;
          announced := announced + [data.value];
        }
      }
    }

    /** `batch_combo.clear()`: the slot runs with index -1, which changes nothing. */
    method ComboClear()
      requires Valid()
      modifies this
      ensures Valid() && combo == old(combo).Clear()
      ensures batches == old(batches) && currentBatchId == old(currentBatchId) && announced == old(announced)
      ensures editEnabled == old(editEnabled) && disposeEnabled == old(disposeEnabled) && deleteEnabled == old(deleteEnabled)
    {
      var signals := combo.ClearSignals();
      combo := combo.Clear();
      if signals {
        OnBatchSelected(-1);
      }
    }

    /** `batch_combo.addItem(text, data)`: the first item of an empty box runs the slot with index 0. */
    method ComboAddItem(item: ComboItem)
      requires Valid()
      modifies this
      ensures Valid() && combo == old(combo).Add(item) && batches == old(batches)
      ensures editEnabled == old(editEnabled) && disposeEnabled == old(disposeEnabled) && deleteEnabled == old(deleteEnabled)
      ensures var changes := old(combo).items == [] && batches != [] && Truthy(item.data);
        && (changes ==> currentBatchId == item.data && announced == old(announced) + [item.data.value])
        && (!changes ==> currentBatchId == old(currentBatchId) && announced == old(announced))
    {
      var signals := combo.AddSignals();
      combo := combo.Add(item);
      if signals {
        OnBatchSelected(0);
      }
    }

    /** The loop of `load_batches` over a non-empty batch list, after `clear()`. */
    method AddBatchItems(formatDate: string -> Option<string>)
      requires Valid() && combo.items == [] && batches != []
      modifies this
      ensures Valid() && batches == old(batches)
      ensures combo.items == BatchItems(batches, formatDate) && combo.index == 0
      ensures editEnabled == old(editEnabled) && disposeEnabled == old(disposeEnabled) && deleteEnabled == old(deleteEnabled)
      ensures var first := BatchIdOf(batches[0]);
        && (Truthy(first) ==> currentBatchId == first && announced == old(announced) + [first.value])
        && (!Truthy(first) ==> currentBatchId == old(currentBatchId) && announced == old(announced))
    {
      var i := 0;
      while i < |batches|
        invariant 0 <= i <= |batches| && Valid() && batches == old(batches)
        invariant combo.items == BatchItems(batches[..i], formatDate)
        invariant combo.index == if i == 0 then -1 else 0
        invariant editEnabled == old(editEnabled) && disposeEnabled == old(disposeEnabled) && deleteEnabled == old(deleteEnabled)
        invariant i == 0 ==> currentBatchId == old(currentBatchId) && announced == old(announced)
        invariant i > 0 ==> var first := BatchIdOf(batches[0]);
          && (Truthy(first) ==> currentBatchId == first && announced == old(announced) + [first.value])
          && (!Truthy(first) ==> currentBatchId == old(currentBatchId) && announced == old(announced))
      {
        BatchItemsSnoc(batches, i, formatDate);
        ComboAddItem(BatchItem(batches[i], formatDate));
        i := i + 1;
      }
      assert batches[..i] == batches;
    }

    /**
     * `load_batches()` as written. When the API call raises, the combo box
     * is refilled with the error entry but the previous batches and the
     * buttons are left as they were.
     */
    method LoadBatches(response: BatchResponse, formatDate: string -> Option<string>)
      requires Valid()
      modifies this
      ensures Valid() && combo.index == 0
      ensures !response.Failed? ==> batches == NormaliseBatches(response)
      ensures !response.Failed? ==> combo.items == LoadedItems(batches, formatDate) && ShowsBatches(formatDate)
      ensures !response.Failed? ==> ButtonsTogether() && (editEnabled <==> batches != [])
      ensures !response.Failed? && batches != [] && Truthy(BatchIdOf(batches[0])) ==>
        currentBatchId == BatchIdOf(batches[0]) && announced == old(announced) + [currentBatchId.value]
      ensures !(!response.Failed? && batches != [] && Truthy(BatchIdOf(batches[0]))) ==>
        currentBatchId == old(currentBatchId) && announced == old(announced)
      ensures response.Failed? ==> batches == old(batches) && combo.items == [ErrorItem]
      ensures response.Failed? ==>
        editEnabled == old(editEnabled) && disposeEnabled == old(disposeEnabled) && deleteEnabled == old(deleteEnabled)
    {
      if response.Failed? {
        ComboClear();
        ComboAddItem(ErrorItem);
      } else {
        var loaded := NormaliseBatches(response);
        batches := loaded;
        ComboClear();
        if loaded != [] {
          AddBatchItems(formatDate);
          editEnabled, disposeEnabled, deleteEnabled := true, true, true;
        } else {
          ComboAddItem(NoBatchesItem);
          editEnabled, disposeEnabled, deleteEnabled := false, false, false;
        }
      }
    }

    /** `load_batches()` with the batches dropped and the buttons disabled when the API call raises. */
    method LoadBatchesCorrected(response: BatchResponse, formatDate: string -> Option<string>)
      requires Valid()
      modifies this
      ensures Valid() && combo.index == 0 && ShowsBatches(formatDate)
      ensures ButtonsTogether() && (editEnabled <==> batches != [])
      ensures !response.Failed? ==> batches == NormaliseBatches(response) && combo.items == LoadedItems(batches, formatDate)
      ensures response.Failed? ==> batches == [] && combo.items == [ErrorItem] && GetSelectedBatch().None?
    {
      if response.Failed? {
        batches := [];
        ComboClear();
        ComboAddItem(ErrorItem);
        editEnabled, disposeEnabled, deleteEnabled := false, false, false;
      } else {
        LoadBatches(response, formatDate);
      }
    }
  }

  /**
   * The failure path as written: after a batch was listed, a failed reload
   * shows only the error entry, yet the stale batch is still selected and is
   * not the entry shown.
   */
  lemma StaleBatchAfterFailedLoad(b: BatchDict, formatDate: string -> Option<string>)
    ensures SelectedBatch([b], 0) == Some(b)
    ensures [ErrorItem] != BatchItems([b], formatDate)
  {
    ErrorItemIsNoBatch(b, formatDate);
    assert BatchItems([b], formatDate)[0] == BatchItem(b, formatDate);
  }
}
