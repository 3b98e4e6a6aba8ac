/**
 * Stock-batch dicts as the desktop client receives them, shared by the
 * product detail page and the stock batch selector: how a batch's id,
 * quantity and combo-box text are read, and how the API response is
 * normalised into a list of batches.
 */
module BatchRecords {
  import opened Wrappers
  import opened Seqs
  import opened Text
  import opened QtWidgets

  /** The `expiration_date` entry: missing, `None`, or a date string. */
  datatype Expiration = ExpAbsent | ExpNull | ExpText(text: string)

  /**
   * A batch dict. `quantity` is None when the key is missing. `otherKeys`
   * says whether the dict holds any key besides those read here.
   */
  datatype BatchDict = BatchDict(
    id: Field, underscoreId: Field, batchId: Field,
    quantity: Option<int>, expiration: Expiration, reason: Option<string>,
    otherKeys: bool)

  /** Python truthiness of the dict: it is not `{}`. */
  predicate DictTruthy(b: BatchDict) {
    || b.id != Absent || b.underscoreId != Absent || b.batchId != Absent
    || b.quantity.Some? || b.expiration != ExpAbsent || b.reason.Some? || b.otherKeys
  }

  /** `batch.get('id') or batch.get('_id') or batch.get('batch_id')`: the first truthy one, else the last. */
  function BatchIdOf(b: BatchDict): (r: Field)
    ensures r != Absent
    ensures Truthy(b.id) ==> r == b.id
    ensures !Truthy(b.id) && Truthy(b.underscoreId) ==> r == b.underscoreId
    ensures !Truthy(b.id) && !Truthy(b.underscoreId) ==> r == OrNull(b.batchId)
    ensures Truthy(r) <==> Truthy(b.id) || Truthy(b.underscoreId) || Truthy(b.batchId)
  {
    Or(Or(OrNull(b.id), OrNull(b.underscoreId)), OrNull(b.batchId))
  }

  /** `batch.get('quantity', 0)`. */
  function QuantityOf(b: BatchDict): int {
    b.quantity.GetOr(0)
  }

  /** `str(value)` of an id read from the dict. */
  function FieldText(f: Field): (s: string)
    ensures f.Int? ==> s == IntToString(f.value)
    ensures !f.Int? ==> s == "None"
  {
    if f.Int? then IntToString(f.value) else "None"
  }

  /**
   * The `Exp:` part of the text. `formatDate` is the client's `format_date`
   * helper (not part of this model); None stands for it raising, in which
   * case the raw string is shown.
   */
  function ExpirationText(e: Expiration, formatDate: string -> Option<string>): (s: string)
    ensures e.ExpAbsent? ==> s == "N/A"
    ensures e.ExpNull? ==> s == "None"
    ensures e.ExpText? && (e.text == "" || e.text == "N/A") ==> s == e.text
    ensures e.ExpText? && e.text != "" && e.text != "N/A" ==> s == formatDate(e.text).GetOr(e.text)
  {
    match e
    case ExpAbsent => "N/A"
    case ExpNull => "None"
    case ExpText(t) => if t == "" || t == "N/A" then t else formatDate(t).GetOr(t)
  }

  /** `f"Batch {batch_id} - {quantity} units (Exp: {expiration})"`. */
  function DisplayText(b: BatchDict, formatDate: string -> Option<string>): string {
    "Batch " + FieldText(BatchIdOf(b)) + " - " + IntToString(QuantityOf(b)) + " units (Exp: "
      + ExpirationText(b.expiration, formatDate) + ")"
  }

  /** The display text starts with "Batch " followed by the id's text, and ends with ")". */
  lemma DisplayTextShape(b: BatchDict, formatDate: string -> Option<string>)
    ensures var t := DisplayText(b, formatDate);
      var id := FieldText(BatchIdOf(b));
      |t| > 6 + |id| && t[..6] == "Batch " && t[6..6 + |id|] == id && t[|t| - 1] == ')'
  {
    var id := FieldText(BatchIdOf(b));
    var t := DisplayText(b, formatDate);
    var rest := " - " + IntToString(QuantityOf(b)) + " units (Exp: " + ExpirationText(b.expiration, formatDate) + ")";
    assert t == "Batch " + id + rest;
  }

  /** The combo entry of a batch: its text, with the batch id as item data. */
  function BatchItem(b: BatchDict, formatDate: string -> Option<string>): ComboItem {
    ComboItem(DisplayText(b, formatDate), BatchIdOf(b))
  }

  /** What the loop adds to the combo box: one entry per batch, in order. */
  function BatchItems(batches: seq<BatchDict>, formatDate: string -> Option<string>): (items: seq<ComboItem>)
    ensures |items| == |batches|
    ensures forall i | 0 <= i < |batches| :: items[i] == BatchItem(batches[i], formatDate)
  {
    seq(|batches|, i requires 0 <= i < |batches| => BatchItem(batches[i], formatDate))
  }

  /** Adding the entry of batch `i` extends the entries of the batches before it. */
  lemma BatchItemsSnoc(batches: seq<BatchDict>, i: nat, formatDate: string -> Option<string>)
    requires i < |batches|
    ensures BatchItems(batches[..i + 1], formatDate) == BatchItems(batches[..i], formatDate) + [BatchItem(batches[i], formatDate)]
  {
    var a := BatchItems(batches[..i + 1], formatDate);
    var b := BatchItems(batches[..i], formatDate);
    forall k | 0 <= k < i
      ensures a[k] == b[k]
    {
      assert batches[..i + 1][k] == batches[..i][k];
    }
    assert batches[..i + 1][i] == batches[i];
    ExtendPointwise(a, b, BatchItem(batches[i], formatDate));
  }

  /** The `get_stock_batches` result: a dict (with or without each key), a list, anything else, or an exception. */
  datatype BatchResponse =
    | DictResponse(batches: Option<seq<BatchDict>>, stockBatches: Option<seq<BatchDict>>)
    | ListResponse(items: seq<BatchDict>)
    | OtherResponse
    | Failed

  /** `response.get('batches', response.get('stock_batches', []))` for a dict, the list itself, `[]` otherwise. */
  function NormaliseBatches(r: BatchResponse): (batches: seq<BatchDict>)
    requires !r.Failed?
    ensures r.DictResponse? && r.batches.Some? ==> batches == r.batches.value
    ensures r.DictResponse? && r.batches.None? && r.stockBatches.Some? ==> batches == r.stockBatches.value
    ensures r.DictResponse? && r.batches.None? && r.stockBatches.None? ==> batches == []
    ensures r.ListResponse? ==> batches == r.items
    ensures r.OtherResponse? ==> batches == []
  {
    match r
    case DictResponse(b, s) => b.GetOr(s.GetOr([]))
    case ListResponse(items) => items
    case OtherResponse => []
  }

  /** `get_selected_batch()`: `batches[index]` exactly when the index is in range. */
  function SelectedBatch(batches: seq<BatchDict>, index: int): (r: Option<BatchDict>)
    ensures r.Some? <==> 0 <= index < |batches|
    ensures r.Some? ==> r.value == batches[index]
  {
    if 0 <= index < |batches| then Some(batches[index]) else None
  }
}
