# StockaDoodle IMS — a verified model of its decision logic

StockaDoodle is an inventory management system. A Flask/MongoDB server assigns
document ids from named counters and generates seven management reports. A PyQt
desktop client shows products, stock batches, categories, a sales dashboard,
reports and the user's profile, behind a login with a second factor sent by email.

This project models in Dafny the parts of that system that decide something:

- the server's id allocation: `BaseDocument.save` and the counter seeding script;
- the seven reports of `ReportGenerator`: range filters, orderings, summaries, shares and alert classification;
- the client's rules for stock batches: selection bounds, which actions are enabled, the delete guard, dispose bounds and default reasons;
- list filtering, sorting and card-grid placement for products and categories;
- the dashboard's per-day sales totals and per-category counts;
- the product, category and profile forms' validation and the requests they build;
- the login window and the MFA window;
- the tab widget, the sidebar and the two typed-confirmation dialogs.

There is one module per source file. Five modules are shared by them:

- `Wrappers`: Option;
- `Text`: the Python string operations used (`strip`, `lower`, `capitalize`, `split`, `join`, `str(int)`, ordering);
- `Seqs`: filters, sums, a stable insertion sort and permutation lemmas;
- `QtWidgets`: combo boxes and spin boxes as Qt defines them;
- `Grid`: the row/column card placement.

Code that changes state step by step is a class. A dialog, a page or a window is a class whose fields are the widgets' values, and its methods carry `modifies` clauses. Each such method is proved against pure specification functions, and the properties are lemmas about those functions. Code the source writes as expressions is a function.

The environment enters as parameters:

- an API call's result is a parameter: a response datatype, or a flag saying whether the call succeeded;
- "today" is a day number;
- date parsing and formatting are given as functions;
- the settings store is a map.

## Model

| member | source | states |
|---|---|---|
| BaseDocument.CounterName | api_server/models/base.py:14-15 | the counter is the document's `meta['collection']` when set, otherwise the class name lower-cased letter by letter |
| BaseDocument.Document.Save | api_server/models/base.py:12-17 | a document without an id gets the next value of the counter `<collection>_id`, which is bumped by one; a document with an id keeps it and draws nothing; either way the document is written under its id |
| Counters.SetOnInsert | api_server/counters_init.py:24-28 | an upsert with `$setOnInsert` adds an absent counter with its initial value and leaves a present one as it was |
| Counters.SeededKeys | api_server/counters_init.py:23-28 | after the seeding loop every listed counter exists and no unlisted one was created |
| Counters.SeededKeeps | api_server/counters_init.py:23-28 | seeding never overwrites a counter that already existed |
| Counters.SeededNoop | api_server/counters_init.py:23-28 | seeding a store that already has every listed counter changes nothing |
| Counters.SeededIdempotent | api_server/counters_init.py:23-28 | running the one-time seeding script again leaves the counters as one run left them |
| Counters.SeededFresh | api_server/counters_init.py:23-28 | a counter absent before seeding takes the value of its first entry in the list |
| Counters.InitialKeysDistinct | api_server/counters_init.py:11-21 | the nine entries of `initial_counters` name nine different counters |
| Counters.SeededAllFresh | api_server/counters_init.py:23-28 | on a store holding none of the listed counters, seeding stores each entry's value under its name |
| Counters.FirstIdsAfterSeeding | api_server/counters_init.py:11-32 | on a fresh store, after seeding the counter `user_id` next hands out 1001 and each other seeded counter hands out 1 |
| BaseDocument.SeededClassKeys | api_server/counters_init.py:11-21 | `User` and the eight other seeded classes, with no `meta['collection']`, draw from exactly the counters the script creates, in its order |
| BaseDocument.FirstSavedIdsAfterSeeding | api_server/counters_init.py:30-32 | on a fresh store, after seeding, the first `User` saved without an id gets 1001 and the first document of each other seeded class gets 1 |
| Counters.CounterStore.GetNextSequence | api_server/models/base.py:16 | for a collection name n, the id returned is one more than the value of the counter `n_id` (0 when absent), and that counter now holds it |
| Counters.CounterStore.SeedCounters | api_server/counters_init.py:23-28 | the loop leaves the store equal to upserting every entry in order: all listed counters present, existing ones unchanged |
| ConfirmDeleteDialog.SessionConfirms | desktop_app/ui/components/confirm_delete_dialog.py:109-124 | a sequence of Delete presses confirms exactly when one of the typed texts, stripped, equals the confirmation text |
| ConfirmDeleteDialog.OnlyStrippedTextConfirms | desktop_app/ui/components/confirm_delete_dialog.py:111-113 | a confirmation text with surrounding whitespace can never be confirmed, because the input is stripped before comparison |
| ConfirmDeleteDialog.Dialog.constructor | desktop_app/ui/components/confirm_delete_dialog.py:23-41 | a new dialog is unconfirmed with an empty input field |
| ConfirmDeleteDialog.Dialog.SetInput | desktop_app/ui/components/confirm_delete_dialog.py:75-90 | typing replaces the field's text and decides nothing |
| ConfirmDeleteDialog.Dialog.OnConfirm | desktop_app/ui/components/confirm_delete_dialog.py:109-124 | a stripped input equal to the confirmation text confirms and accepts; any other input clears the field and leaves the dialog open and unconfirmed |
| ConfirmDeleteDialog.Dialog.IsConfirmed | desktop_app/ui/components/confirm_delete_dialog.py:126-128 | the dialog reports confirmed exactly when `accept()` closed it |
| ConfirmProductDeleteDialog.Dialog.constructor | desktop_app/ui/components/confirm_product_delete_dialog.py:23-43 | the Delete button starts disabled with an empty field, which is consistent whenever the stock text is non-empty |
| ConfirmProductDeleteDialog.Dialog.ValidateInput | desktop_app/ui/components/confirm_product_delete_dialog.py:186-206 | after each edit the Delete button is enabled exactly when the stripped text equals the current stock text |
| ConfirmProductDeleteDialog.Dialog.OnConfirm | desktop_app/ui/components/confirm_product_delete_dialog.py:217-233 | a match confirms and accepts; a mismatch clears the field, which disables the button again |
| ConfirmProductDeleteDialog.Dialog.IsConfirmed | desktop_app/ui/components/confirm_product_delete_dialog.py:235-237 | the dialog reports confirmed exactly when it was accepted |
| Grid.Cells | desktop_app/ui/pages/categories.py:130-146 | card k of the grid sits in row k / 4 and column k % 4 |
| Grid.CellsDistinct | desktop_app/ui/pages/products/product_list.py:252-268 | no two cards share a cell, and an earlier card comes earlier in row-major order |
| Grid.PlaceCards | desktop_app/ui/pages/categories.py:130-146 | the loop that bumps the column and wraps to a new row after four cards places every card where `Grid.Cells` says |
| Reports.ReportType | desktop_app/ui/pages/reports.py:124-137 | the entry at an index in range selects its report type; index -1 (no selection) picks the last one, user accounts, by Python's negative indexing; an index past the list falls back to sales performance |
| Reports.ReportTypesMatchEntries | desktop_app/ui/pages/reports.py:84-92 | the seven combo entries and the seven report types pair up, and different entries select different reports |
| Reports.ReportParams | desktop_app/ui/pages/reports.py:139-153 | the date range is sent for the date-based reports, and no parameter at all for the others |
| Reports.DatesOnlyForDateBasedReports | desktop_app/ui/pages/reports.py:146-151 | only Sales Performance, Transactions and the fallback index carry a start date, and the end date is sent exactly when the start date is |
| Sidebar.NavTabs | desktop_app/ui/sidebar.py:99-108 | managers and administrators get a button for all six pages, everyone else only the Profile button |
| Sidebar.AllTabsForManagers | desktop_app/ui/sidebar.py:99-104 | for a manager or an administrator every tab from Dashboard to Profile has a button |
| Sidebar.Bar.constructor | desktop_app/ui/sidebar.py:40-108 | the sidebar starts on the Dashboard, with the role's buttons and only the Dashboard button checked |
| Sidebar.Bar.CreateNavButton | desktop_app/ui/sidebar.py:110-161 | a new checkable button is registered under its tab index with its text, checked only when it is the Dashboard's |
| Sidebar.Bar.UncheckAll | desktop_app/ui/sidebar.py:172-174 | the loop unchecks every button and keeps the same buttons |
| Sidebar.Bar.OnTabClicked | desktop_app/ui/sidebar.py:163-183 | a click leaves only the clicked button checked, makes its tab current, emits `tab_selected` and calls the callback when one was given |
| Sidebar.Bar.SetCurrentTab | desktop_app/ui/sidebar.py:185-198 | a tab with a button becomes current with only its button checked; any other index changes nothing and emits nothing |
| Sidebar.AtMostOneChecked | desktop_app/ui/sidebar.py:172-178 | at any time at most one button is checked, and it belongs to the current tab |
| Sidebar.StaffStartUnchecked | desktop_app/ui/sidebar.py:52 | for a user who sees only the Profile page, the sidebar starts with the Dashboard current but no button checked |
| TabWidget.OneHotCount | desktop_app/ui/components/custom_tab_widget.py:122-123 | checking button i and unchecking every other leaves exactly one checked button when i is in range |
| TabWidget.Widget.constructor | desktop_app/ui/components/custom_tab_widget.py:25-31 | a new widget has no tabs, no buttons and current index 0 |
| TabWidget.Widget.AddTab | desktop_app/ui/components/custom_tab_widget.py:59-108 | the new tab's index is the number of tabs before it; the page and its button are appended, and only the first button starts checked |
| TabWidget.Widget.SetCurrentIndex | desktop_app/ui/components/custom_tab_widget.py:110-125 | an index in range becomes current, is shown, is the only checked button and is emitted; an index out of range changes nothing |
| TabWidget.Widget.ClickTab | desktop_app/ui/components/custom_tab_widget.py:100 | a click on a tab button, which first toggles that button, still ends with exactly that button checked and its tab current |
| TabWidget.Widget.CurrentIndex | desktop_app/ui/components/custom_tab_widget.py:127-129 | the current index is 0 without tabs, and otherwise a tab whose button is checked |
| TabWidget.ExactlyOneChecked | desktop_app/ui/components/custom_tab_widget.py:105-123 | once the widget has a tab exactly one button is checked, and before that none |
| Categories.SearchText | desktop_app/ui/pages/categories.py:112 | the search text is the box's text lower-cased and stripped, and it is empty exactly when that text is blank |
| Categories.BlankSearchKeepsAll | desktop_app/ui/pages/categories.py:121-127 | an empty or whitespace-only search keeps every category, in order |
| Categories.FilterSpec | desktop_app/ui/pages/categories.py:121-127 | a category is kept exactly when the search is empty or is a substring of its lower-cased name or description, and the kept ones stay in their original order |
| Categories.NormaliseCategories | desktop_app/ui/pages/categories.py:98-103 | a dict response gives its `categories` (or none), a list gives itself, anything else gives no categories |
| Categories.DeleteCategory | desktop_app/ui/pages/categories.py:177-188 | a delete request is sent exactly when the user typed the category's name; only a name without surrounding whitespace can ever be deleted this way |
| Categories.Page.constructor | desktop_app/ui/pages/categories.py:31-38 | a new page starts with an empty search and runs the first load: on success it holds the normalised categories and shows every one of them; when the call raises it holds none and shows an empty grid without the "No categories found" label |
| Categories.Page.FilterCategories | desktop_app/ui/pages/categories.py:110-159 | the grid shows the matching categories in their original order, four to a row, and the "No categories found" label exactly when none match |
| Categories.Page.LoadCategories | desktop_app/ui/pages/categories.py:92-108 | a response replaces the category list by its normalised form and redisplays it; on an exception the list and the grid are left as they were |
| Categories.Page.SetSearch | desktop_app/ui/pages/categories.py:58-61 | editing the search box redisplays the grid for the new text without touching the list |
| CategoryForm.SplitFirst | desktop_app/ui/dialogs/category_form_dialog.py:135 | `split(',', 1)` gives the text before the first comma and everything after it, and fails when there is no comma |
| CategoryForm.LoadedImage | desktop_app/ui/dialogs/category_form_dialog.py:129-150 | the image kept when editing is `image_base64` or else `category_image`, with a data URL's header cut off at its first comma, kept only when it decodes to a picture; no stored image keeps none |
| CategoryForm.SaveRequestRules | desktop_app/ui/dialogs/category_form_dialog.py:186-215 | a blank name is refused before any call; otherwise the stripped name and the description (None when blank) are sent, a create always passes the image and an update carries the category's id and the image only when one is set |
| CategoryForm.Form.constructor | desktop_app/ui/dialogs/category_form_dialog.py:31-52 | edit mode holds exactly when category data is given, and then the name, the description and the image are loaded from it |
| CategoryForm.Form.UploadImage | desktop_app/ui/dialogs/category_form_dialog.py:152-177 | a chosen file of at most 5 MB becomes the image path and its base64 text the image; a cancelled choice or a larger file changes nothing |
| CategoryForm.Form.RemoveImage | desktop_app/ui/dialogs/category_form_dialog.py:179-184 | after removing the image both its path and its base64 text are None |
| CategoryForm.Form.SaveCategory | desktop_app/ui/dialogs/category_form_dialog.py:186-221 | a blank name shows an error and keeps the dialog open; otherwise the request is sent and the dialog accepts exactly when the call succeeds |
| CategoryForm.RemovedImageNotSent | desktop_app/ui/dialogs/category_form_dialog.py:179-206 | an update saved after `remove_image` carries no image |
| BatchRecords.BatchIdOf | desktop_app/ui/components/stock_batch_selector.py:134 | a batch's id is its first truthy `id`, `_id` or `batch_id` entry, else the last of them; it is truthy exactly when one of the three is |
| BatchRecords.FieldText | desktop_app/ui/components/stock_batch_selector.py:145 | an integer id is shown as its decimal digits and a missing or null one as "None" |
| BatchRecords.ExpirationText | desktop_app/ui/components/stock_batch_selector.py:136-143 | a missing expiration shows "N/A", a null one "None", an empty or "N/A" text as it is, and any other text as `format_date` gives it, or unchanged when that raises |
| BatchRecords.DisplayTextShape | desktop_app/ui/components/stock_batch_selector.py:145 | every entry's text starts with "Batch " followed by the batch id and ends with ")" |
| BatchRecords.BatchItems | desktop_app/ui/components/stock_batch_selector.py:133-146 | the combo box gets one entry per batch, in order, with the display text and the batch id as item data |
| BatchRecords.BatchItemsSnoc | desktop_app/ui/components/stock_batch_selector.py:133-146 | each turn of the loop appends the entry of the next batch to the entries of the batches before it |
| BatchRecords.NormaliseBatches | desktop_app/ui/components/stock_batch_selector.py:122-127 | a dict response gives `batches`, else `stock_batches`, else nothing; a list gives itself; anything else gives no batches |
| BatchRecords.SelectedBatch | desktop_app/ui/components/stock_batch_selector.py:171-176 | the selected batch is `batches[index]` exactly when the index is in range, and None otherwise |
| StockBatchSelector.LoadedItems | desktop_app/ui/components/stock_batch_selector.py:130-153 | after a load the combo lists one entry per batch, or the single "No batches available" entry when there are none |
| StockBatchSelector.ErrorItemIsNoBatch | desktop_app/ui/components/stock_batch_selector.py:145-161 | the "Error loading batches" entry can never be mistaken for a batch's entry |
| StockBatchSelector.ForwardSelected | desktop_app/ui/components/stock_batch_selector.py:187-211 | edit and dispose warn when no non-empty batch is selected, and otherwise hand exactly the selected batch to the parent's dialog when the parent has one |
| StockBatchSelector.DeleteConfirmationText | desktop_app/ui/components/stock_batch_selector.py:213-228 | deleting asks the user to type the selected batch's quantity, whatever it is, and refuses without a selection; that text has no surrounding whitespace, so it can be confirmed |
| StockBatchSelector.Selector.constructor | desktop_app/ui/components/stock_batch_selector.py:33-48 | a new selector runs the first load: it holds and lists the normalised batches, or only the error entry and no batch when the call raises; the three buttons are enabled together exactly when a batch is held; the first batch's id becomes current, and is announced, when it is truthy, and otherwise no id is current and nothing is announced |
| StockBatchSelector.Selector.GetSelectedBatch | desktop_app/ui/components/stock_batch_selector.py:171-176 | the selected batch is the one at the combo box's current index exactly when that index is in range |
| StockBatchSelector.Selector.SelectionIsShown | desktop_app/ui/components/stock_batch_selector.py:171-176 | when the listed entries are those of the held batches, the selected batch is the one whose entry is current |
| StockBatchSelector.Selector.OnBatchSelected | desktop_app/ui/components/stock_batch_selector.py:163-169 | the current batch id changes, and is announced, only when the index is non-negative, batches are held and the item's data is truthy |
| StockBatchSelector.Selector.ComboClear | desktop_app/ui/components/stock_batch_selector.py:130 | clearing the combo box fires the slot with index -1, which changes no selection state |
| StockBatchSelector.Selector.ComboAddItem | desktop_app/ui/components/stock_batch_selector.py:146 | the first entry added to an empty combo box becomes current and fires the slot with index 0 |
| StockBatchSelector.Selector.AddBatchItems | desktop_app/ui/components/stock_batch_selector.py:133-146 | the loop lists every batch in order, leaves the first one current and makes its id current when it is truthy |
| StockBatchSelector.Selector.LoadBatches | desktop_app/ui/components/stock_batch_selector.py:116-161 | a response replaces the batches by their normalised form and lists them, and Edit, Dispose and Delete are enabled together exactly when some batch was listed, whatever the quantities; a failed call shows only the error entry but keeps the old batches and buttons |
| StockBatchSelector.Selector.LoadBatchesCorrected | desktop_app/ui/components/stock_batch_selector.py:158-161 | the same load, where a failed call also drops the batches and disables the buttons, so nothing is selected |
| StockBatchSelector.StaleBatchAfterFailedLoad | desktop_app/ui/components/stock_batch_selector.py:158-176 | after one batch was listed, a failed reload leaves that batch selected although only the error entry is shown |
| ProductDetail.ReasonOr | desktop_app/ui/pages/products/product_detail.py:105 | a reason of nothing but whitespace becomes the dialog's default, anything else is sent stripped, so a non-empty default means the reason is never empty |
| ProductDetail.DisposeDialog.Enter | desktop_app/ui/pages/products/product_detail.py:66-76 | setting the quantity and typing a reason keep the batch, the available quantity and the spin box's range |
| ProductDetail.DisposeDialog.GetData | desktop_app/ui/pages/products/product_detail.py:101-106 | the disposal data is the spin box's value and the stripped reason, "Disposed" when blank |
| ProductDetail.NewDisposeDialog | desktop_app/ui/pages/products/product_detail.py:25-69 | the dialog reads the batch id and its quantity (0 when missing); with stock available the spin box runs from 1 to the available quantity and starts at 1, and with none Qt collapses the range to the available quantity |
| ProductDetail.DisposeQuantityBounded | desktop_app/ui/pages/products/product_detail.py:66-69 | whatever the user enters, the disposed quantity lies between 1 and the available quantity when anything is available, and a value in that range is taken as entered |
| ProductDetail.AddDialog.Enter | desktop_app/ui/pages/products/product_detail.py:128-145 | entering a quantity, a date and a reason keeps the spin box's range |
| ProductDetail.AddDialog.GetData | desktop_app/ui/pages/products/product_detail.py:170-176 | the new batch data is the quantity, the expiration date and the stripped reason, "Stock added" when blank |
| ProductDetail.NewAddDialog | desktop_app/ui/pages/products/product_detail.py:128-137 | the dialog starts with quantity 1 in the range 1 to 999999 and the date a year from today |
| ProductDetail.EditDialog.Enter | desktop_app/ui/pages/products/product_detail.py:201-210 | the user may change the date and the reason, and nothing else |
| ProductDetail.EditDialog.GetData | desktop_app/ui/pages/products/product_detail.py:250-255 | the edit data is only an expiration date and the stripped reason, "Updated" when blank, never a quantity |
| ProductDetail.NewEditDialog | desktop_app/ui/pages/products/product_detail.py:235-248 | a stored expiration that is a non-empty valid `yyyy-MM-dd` date is shown, otherwise the date edit keeps its initial date; the stored reason is shown, or nothing |
| ProductDetail.EditUntouchedKeepsBatch | desktop_app/ui/pages/products/product_detail.py:235-255 | saving the edit dialog without changes sends back the stored date and the stored reason, stripped |
| ProductDetail.ButtonsFor | desktop_app/ui/pages/products/product_detail.py:588-599 | with a batch selected Edit is enabled, Dispose exactly when stock remains and Delete exactly when none does; with none selected all three are disabled |
| ProductDetail.ButtonsExclusive | desktop_app/ui/pages/products/product_detail.py:594-595 | Dispose and Delete are never enabled together, and either one implies Edit |
| ProductDetail.LoadedItems | desktop_app/ui/pages/products/product_detail.py:556-573 | after a load the combo lists one entry per batch, or only "No batches available", and is never empty |
| ProductDetail.Page.constructor | desktop_app/ui/pages/products/product_detail.py:444-480 | `__init__` as written: the first load runs before the batch buttons exist, so the slot it fires raises; the page then lists the loaded batches (or an error entry) with entry 0 current, and all three buttons are disabled whatever is selected |
| ProductDetail.Page.Corrected | desktop_app/ui/pages/products/product_detail.py:444-480 | with the buttons created before the first load, the slot never raises and the buttons describe the selected batch |
| ProductDetail.FirstLoadLeavesButtonsDisabled | desktop_app/ui/pages/products/product_detail.py:444-480 | when the first batch loaded is a non-empty dict, batch 0 calls for Edit to be enabled, so the all-disabled buttons `__init__` leaves do not match the selection |
| ProductDetail.Page.GetSelectedBatch | desktop_app/ui/pages/products/product_detail.py:581-586 | the selected batch is `batches[index]` for the combo's current index exactly when that index is in range, else None |
| ProductDetail.Page.OnBatchSelected | desktop_app/ui/pages/products/product_detail.py:588-599 | once the buttons exist, they are recomputed from the batch `get_selected_batch` returns; before that the slot raises and changes no button; nothing else changes |
| ProductDetail.Page.ComboClear | desktop_app/ui/pages/products/product_detail.py:554 | clearing a non-empty combo box fires `on_batch_selected` with nothing selected, which disables the three buttons once they exist and raises before that |
| ProductDetail.Page.ComboAddItem | desktop_app/ui/pages/products/product_detail.py:571 | the first entry added to an empty combo box becomes current, and the buttons then describe the first batch held, or the slot raises when the buttons do not exist yet |
| ProductDetail.Page.AddBatchItems | desktop_app/ui/pages/products/product_detail.py:557-571 | the loop lists every batch in order and leaves the first one current, with the buttons describing it once they exist |
| ProductDetail.Page.LoadBatches | desktop_app/ui/pages/products/product_detail.py:541-579 | on success the batches are replaced by the normalised response and listed, with the buttons matching the selected batch; when the call raises the combo shows only the error entry and the batches are dropped, but the buttons still describe the previous first batch; before the buttons exist, the slot raises and the buttons are untouched |
| ProductDetail.Page.LoadBatchesCorrected | desktop_app/ui/pages/products/product_detail.py:575-579 | the same load, where a failure drops the batches before refilling the combo, so all three buttons end disabled |
| ProductDetail.StaleButtonsAfterFailedLoad | desktop_app/ui/pages/products/product_detail.py:575-599 | after a batch of 5 units was listed, a failed reload leaves Edit and Dispose enabled although no batch is listed |
| ProductDetail.DisposeBatch | desktop_app/ui/pages/products/product_detail.py:646-665 | without a selected batch only a warning is shown; a cancelled dialog sends nothing; otherwise the request carries the batch's id, the dialog's quantity and its reason |
| ProductDetail.DisposeEnabledBoundsRequest | desktop_app/ui/pages/products/product_detail.py:594-665 | while Dispose is enabled, any disposal sent takes between 1 and the batch's units and has a non-empty reason |
| ProductDetail.EditBatch | desktop_app/ui/pages/products/product_detail.py:620-639 | without a selected batch only a warning is shown; a cancelled dialog sends nothing; otherwise the update carries the batch's id, a date and a reason, and no quantity |
| ProductDetail.AddBatch | desktop_app/ui/pages/products/product_detail.py:601-612 | a cancelled dialog sends nothing; otherwise the new batch has between 1 and 999999 units, a year-ahead date unless another is picked, and "Stock added" when no reason is typed |
| ProductDetail.DeleteBatch | desktop_app/ui/pages/products/product_detail.py:673-696 | without a selection only a warning is shown; a batch with stock left is refused before any dialog; otherwise it is deleted exactly when the user typed its quantity |
| ProductDetail.DeleteEnabledNeedsZero | desktop_app/ui/pages/products/product_detail.py:595-694 | while Delete is enabled the guard lets the batch through, and the user must type "0" to delete it |
| ProductDetail.NonEmptyBatchNeverDeleted | desktop_app/ui/pages/products/product_detail.py:683-685 | a batch that still holds stock is never deleted, whatever is typed |
| ProductDetail.ProductStockText | desktop_app/ui/pages/products/product_detail.py:706 | the stock to type is a truthy `stock_level`, otherwise `stock` (0 when missing, "None" when null) |
| ProductDetail.ProductStockTextTypable | desktop_app/ui/pages/products/product_detail.py:706-710 | the stock text is never empty and has no surrounding whitespace, so typing it as shown confirms the deletion |
| ProductDetail.CanDeleteProduct | desktop_app/ui/pages/products/product_detail.py:497-503 | the Delete Product button exists exactly when the current user's role, lower-cased, is admin or manager |
| ProductList.StockKey | desktop_app/ui/pages/products/product_list.py:247 | the stock a product is sorted on is its `stock_level`, falling back to `stock` when that is 0 or missing |
| ProductList.ContainsSelf | desktop_app/ui/pages/products/product_list.py:238 | each sort option's text contains itself, so its own test in the chain matches it |
| ProductList.NotContainsFirstChar | desktop_app/ui/pages/products/product_list.py:238-248 | a Name option's text can never be found in a Price or Stock option's text |
| ProductList.NotContainsSameLength | desktop_app/ui/pages/products/product_list.py:238-248 | of two different option texts of the same length, neither is found in the other |
| ProductList.SortOptionsSelectTheirOrder | desktop_app/ui/pages/products/product_list.py:93-100 | each of the six entries of the sort combo selects its own order, since no earlier `in` test of the chain matches it |
| ProductList.ComparisonIsPreorder | desktop_app/ui/pages/products/product_list.py:238-249 | each of the six orders (lower-cased name, price, stock key; ascending or reversed) is total and transitive, so sorting by it is well defined |
| ProductList.SortProducts | desktop_app/ui/pages/products/product_list.py:237-249 | sorting rearranges the filtered products without adding or losing any, and a sort text matching no option leaves them as they were |
| ProductList.ListingSpec | desktop_app/ui/pages/products/product_list.py:217-249 | a product is listed exactly when the search is empty or found in its lower-cased name or brand and no category is selected or its `category_id` is the selected one; the filtered list keeps the original order, the listing is a permutation of it sorted by the chosen order, and products with equal keys keep their relative order |
| ProductList.ListingUnfiltered | desktop_app/ui/pages/products/product_list.py:224-231 | with no search text and All Categories, every product is listed |
| ProductList.FilterAll | desktop_app/ui/pages/products/product_list.py:221-234 | a filter that every product passes keeps the list as it is |
| ProductList.CategoryMapKeys | desktop_app/ui/pages/products/product_list.py:196 | the category map has an entry for exactly the ids of the loaded categories |
| ProductList.CategoryMapLastWins | desktop_app/ui/pages/products/product_list.py:196 | an id maps to the name, or "N/A", of the last category carrying it |
| ProductList.WithCategoryName | desktop_app/ui/pages/products/product_list.py:198-199 | a product's `category_name` becomes the mapped name of its `category_id`, or "Uncategorized" when the id is unknown; nothing else of it changes |
| ProductList.WithCategoryNames | desktop_app/ui/pages/products/product_list.py:197-199 | every product, in order, is labelled in this way |
| ProductList.CategoryNameResolved | desktop_app/ui/pages/products/product_list.py:196-199 | every product gets a category name: a loaded category's name when some category has its id, and "Uncategorized" otherwise |
| ProductList.LastWithId | desktop_app/ui/pages/products/product_list.py:196 | for an id some category carries, the last such category is the one whose name the map holds |
| ProductList.NoCategoriesAllUncategorized | desktop_app/ui/pages/products/product_list.py:196-199 | with no categories loaded, every product is labelled "Uncategorized" |
| ProductList.NormaliseProducts | desktop_app/ui/pages/products/product_list.py:188-193 | a dict response gives `products`, else `items`, else nothing; a list gives itself; anything else gives no products |
| ProductList.CategoryItems | desktop_app/ui/pages/products/product_list.py:171-178 | the category combo lists "All Categories" with no data first, then each category's name (or "N/A") with its id, in order |
| ProductList.CategoryItemsSnoc | desktop_app/ui/pages/products/product_list.py:174-178 | each turn of the loop appends the entry of the next category |
| ProductList.FindProduct | desktop_app/ui/pages/products/product_list.py:301 | the product found is the first one with the given id, and none is found exactly when no product has it |
| ProductList.DeleteProduct | desktop_app/ui/pages/products/product_list.py:297-314 | an unknown id reports "Product not found"; otherwise the product is deleted exactly when the user typed the stock text of the first product with that id |
| ProductList.Page.FilterProducts | desktop_app/ui/pages/products/product_list.py:206-281 | the grid shows the listing for the current search, category and sort order, four cards to a row, and the "No products found" label exactly when nothing is listed; the loaded data is untouched |
| ProductList.Page.LoadProducts | desktop_app/ui/pages/products/product_list.py:182-204 | a response replaces the products by its normalised form, each labelled with its category's name from the categories loaded so far, and redisplays; an exception leaves everything as it was |
| ProductList.Page.ResolveCategoryNames | desktop_app/ui/pages/products/product_list.py:197-199 | the loop labels every product in place through the map and changes nothing else |
| ProductList.Page.ComboClear | desktop_app/ui/pages/products/product_list.py:171 | clearing the category combo redisplays when it changes the current index |
| ProductList.Page.ComboAddItem | desktop_app/ui/pages/products/product_list.py:172-178 | the first entry added becomes current and redisplays the grid |
| ProductList.Page.LoadCategories | desktop_app/ui/pages/products/product_list.py:167-180 | the categories are replaced and listed in the combo after "All Categories", which is left selected with the grid redisplayed; the products' category names are not recomputed; an exception changes nothing |
| ProductList.Page.Init | desktop_app/ui/pages/products/product_list.py:36-45 | as written, the products are loaded before any category is known, so every product is labelled "Uncategorized" even after the categories have loaded |
| ProductList.Page.InitCorrected | desktop_app/ui/pages/products/product_list.py:43-45 | loading the categories first labels every product with its category's name |
| ProductList.FirstLoadLosesCategoryNames | desktop_app/ui/pages/products/product_list.py:44-45 | a product of category 3 is labelled "Uncategorized" on the first load as written, but "Drinks" when category 3 "Drinks" is loaded first |
| ProductForm.CategoryCombo | desktop_app/ui/pages/products/product_form.py:173-184 | after loading the categories the combo lists the "Select Category..." entry with no data, then each category's name (or "N/A") with its id, with no entry current, since the box has a placeholder text (line 78) and Qt 6 then leaves the index at -1; the placeholder text is shown and the current data is None |
| ProductForm.NewPriceBox | desktop_app/ui/pages/products/product_form.py:85-89 | the price box runs from 0.01 to 999999.99, and `setValue(0.00)` is clamped up to 0.01 |
| ProductForm.NewStockBox | desktop_app/ui/pages/products/product_form.py:93-96 | the stock box runs from 0 to 999999 and starts at 0 |
| ProductForm.NewMinStockBox | desktop_app/ui/pages/products/product_form.py:100-103 | the minimum-stock box runs from 0 to 9999 and starts at the default of 5 |
| ProductForm.LoadedStock | desktop_app/ui/pages/products/product_form.py:196 | the stock loaded is `stock_level`, falling back to `stock` when that is 0 or missing |
| ProductForm.SaveRequestRules | desktop_app/ui/pages/products/product_form.py:260-326 | save refuses, in this order, a blank name, no category and a price of at most 0; otherwise the stripped name, the brand and details (None when blank), the category, the price, the minimum stock and the date are sent, the stock only when positive, and an update carries the product's id and an image only when one is set |
| ProductForm.SelectCategory | desktop_app/ui/pages/products/product_form.py:201-205 | a set category id that the combo lists becomes current; otherwise the combo is left as it was |
| ProductForm.LoadedDate | desktop_app/ui/pages/products/product_form.py:208-216 | a non-empty stored expiration date that parses as `yyyy-MM-dd` is shown; otherwise the date edit keeps its date |
| ProductForm.Form.constructor | desktop_app/ui/pages/products/product_form.py:33-54 | edit mode holds exactly when product data is given; a new form has empty texts, the spin boxes' defaults (minimum stock 5), the date a year ahead and no category current, and an edit form shows the product's values, with `min_stock_level` defaulting to 5 and the product's category current when it is set and listed (no category current otherwise) |
| ProductForm.Form.LoadProductData | desktop_app/ui/pages/products/product_form.py:188-224 | the form shows the product's name, brand, details, price, stock and minimum stock (5 when missing), each clamped to its box; its category when listed, its date when valid and its image path when set, and otherwise those widgets keep their values |
| ProductForm.Form.UploadImage | desktop_app/ui/pages/products/product_form.py:226-251 | a chosen file of at most 5 MB becomes the image path and its base64 text the image; a cancelled choice or a larger file changes nothing |
| ProductForm.Form.RemoveImage | desktop_app/ui/pages/products/product_form.py:253-258 | afterwards both the image path and its base64 text are None |
| ProductForm.Form.SaveProduct | desktop_app/ui/pages/products/product_form.py:260-332 | a refused form shows why and stays open; an unreadable image file or a failed call is an error; otherwise the request is sent and the dialog accepts; the price check can never refuse, since the price box never goes below 0.01 |
| ProductForm.LoadedPriceSentInHundredths | desktop_app/ui/pages/products/product_form.py:195-280 | a product loaded for editing with a price of p units and saved is sent with price 100 * p |
| Dashboard.DaysFor | desktop_app/ui/pages/dashboard.py:208-209 | each of the three period labels selects 1, 7 or 30 days, and any other text falls back to 7 |
| Dashboard.FilterOptionsDistinct | desktop_app/ui/pages/dashboard.py:146 | the combo box's three options select three different periods, each of them 1, 7 or 30 days |
| Dashboard.ReplaceZ | desktop_app/ui/pages/dashboard.py:240 | after replacing `Z` by `+00:00` no `Z` is left, a text without `Z` is unchanged, and the text never gets shorter |
| Dashboard.SaleDay | desktop_app/ui/pages/dashboard.py:235-247 | a sale with no or an empty `created_at` is skipped; a text is parsed after the `Z` replacement (and skipped when that fails); a datetime counts under its own date |
| Dashboard.AggregatedStep | desktop_app/ui/pages/dashboard.py:245 | adding one sale's amount to its day's entry keeps the dict holding, for exactly the days seen, the total of the sales on that day |
| Dashboard.AggregateDailySales | desktop_app/ui/pages/dashboard.py:233-247 | the `daily_sales` dict has a key exactly for the days some sale falls on, holding the sum of those sales' `total_amount` (missing counts as 0), and its insertion order lists each key once |
| Dashboard.SortedDays | desktop_app/ui/pages/dashboard.py:250 | sorting the distinct day keys gives them strictly ascending, with exactly the same days |
| Dashboard.SalesSeries | desktop_app/ui/pages/dashboard.py:250-252 | the chart's dates are strictly ascending and are exactly the days with a sale, and each amount is the total of its own date |
| Dashboard.SaleIsCharted | desktop_app/ui/pages/dashboard.py:234-252 | every sale with a parsable date appears in the chart under its day |
| Dashboard.IdToNameKeys | desktop_app/ui/pages/dashboard.py:304 | the id-to-name dict has a key exactly for the ids of the categories listed |
| Dashboard.IdToNameLastWins | desktop_app/ui/pages/dashboard.py:304 | a category whose id no later category repeats names that id, with `Unknown` for a missing name |
| Dashboard.Label | desktop_app/ui/pages/dashboard.py:308-313 | a product whose `category_id` is truthy and known is counted under that category's name, and every other product under `Uncategorized` |
| Dashboard.CountPositive | desktop_app/ui/pages/dashboard.py:307-313 | a slice has a positive count exactly when some product is counted under it |
| Dashboard.CountAgain | desktop_app/ui/pages/dashboard.py:311 | incrementing a label already in the dict keeps every count equal to the number of products under that label and the counts summing to the products seen |
| Dashboard.CountFirst | desktop_app/ui/pages/dashboard.py:311-313 | a label seen for the first time enters the dict with count 1, as its last key, keeping the same counting invariant |
| Dashboard.CountProducts | desktop_app/ui/pages/dashboard.py:303-313 | after the loop each label's count is the number of products counted under it, only labels with a product are keys, each key is listed once, in the order of the first product carrying it, and the counts add up to the number of products |
| Dashboard.FirstLabelsAreTheLabels | desktop_app/ui/pages/dashboard.py:307-313 | the labels in first-occurrence order are distinct and are exactly the labels of the products |
| Dashboard.CountedLabels | desktop_app/ui/pages/dashboard.py:307-316 | the labels counted are exactly the labels of the products, so the category fallback runs only when there are no products |
| Dashboard.OnePerCategory | desktop_app/ui/pages/dashboard.py:316-318 | with no products, every distinct category name (or `Unknown`) becomes one slice of size 1, listed once |
| Dashboard.Page.constructor | desktop_app/ui/pages/dashboard.py:84 | a new dashboard shows the 7-day period and empty charts |
| Dashboard.Page.OnFilterChanged | desktop_app/ui/pages/dashboard.py:201-210 | choosing a period sets `current_days` from its label (7 for an unknown label) and leaves both charts as they were |
| Dashboard.Page.UpdateSalesChart | desktop_app/ui/pages/dashboard.py:220-252 | the sales chart shows each day with a sale once, in ascending order, with that day's total, and nothing else on the page changes |
| Dashboard.Page.UpdateCategoryChart | desktop_app/ui/pages/dashboard.py:291-328 | with products, one slice per label with its product count, in the order of the first product carrying each label, and the sizes summing to the number of products; with none, one slice of size 1 per category name; the labels are distinct and the rest of the page is unchanged |
| Login.SavedAsExactly | desktop_app/ui/login_window.py:255-262 | with Remember Me checked the store holds the flag on and the username as typed; unchecked, the flag off and no username; and on the window's two keys no other store fits that description |
| Login.LoadedCredentials | desktop_app/ui/login_window.py:247-253 | the username is filled in and the box checked exactly when the stored flag is on (a missing flag reads as off), and the username is the stored one or `""` |
| Login.RememberRoundTrip | desktop_app/ui/login_window.py:247-262 | a username saved with Remember Me is the one the next window fills in; saving with it unchecked removes the username, and the next window fills in nothing |
| Login.Toggle | desktop_app/ui/login_window.py:238-245 | the echo mode always flips, and the button shows 🙈 exactly while the password is visible and 👁 exactly while it is hidden |
| Login.ToggleTwice | desktop_app/ui/login_window.py:238-245 | toggling twice restores the echo mode |
| Login.LoginOutcomeRules | desktop_app/ui/login_window.py:292-356 | a blank username (after stripping) is reported first and then an empty password; the login succeeds exactly when the response asks for no second factor and carries a non-empty user, or asks for one, gives an email and the verification window is accepted; a second factor asked for without an email is an error; a closed verification window keeps the response's username (or the typed one) and email; a raised call shows its own message |
| Login.Window.constructor | desktop_app/ui/login_window.py:34-48 | a new window starts with an empty password hidden behind 👁, no error and no user, and fills in the remembered username with the box checked exactly when the store says so |
| Login.Window.TogglePassword | desktop_app/ui/login_window.py:238-245 | the eye button switches the echo mode and its label as Toggle says, and touches neither field nor the store |
| Login.Window.OnLogin | desktop_app/ui/login_window.py:292-306 | the outcome is the one the rules give; the two input errors show a message and leave the button enabled; only a successful login saves the credentials, accepts the window and keeps the user from the response or the verification window; every failing branch re-enables the button and leaves the store as it was |
| Login.Window.Submit | desktop_app/ui/login_window.py:308-356 | the `try` block: the response's branch decides the outcome, a success saves the credentials and stores the user, each error shows its message and re-enables the button |
| Login.Window.GetUserData | desktop_app/ui/login_window.py:363-365 | the stored user data, or an empty dict when there is none |
| Mfa.EnteredCode | desktop_app/ui/mfa_window.py:282-284 | the joined code is never longer than the fields' texts together |
| Mfa.EnteredCodeLength | desktop_app/ui/mfa_window.py:150-153 | with one character per field, the code is at most as long as the number of fields, and exactly that long when every field is filled |
| Mfa.SixDigitsIffAllFilled | desktop_app/ui/mfa_window.py:274-284 | for the six fields, the code has six digits exactly when all six are filled, and otherwise some field is empty |
| Mfa.FirstEmpty | desktop_app/ui/mfa_window.py:331-334 | the focus goes to an empty field with every field before it filled, or past the end when all are filled |
| Mfa.CascadeStop | desktop_app/ui/mfa_window.py:267-272 | the chain of `handle_backspace` calls ends below its starting field, every field it passes held a digit, and it rests on the first empty field or field 0 |
| Mfa.ResendText | desktop_app/ui/mfa_window.py:317-322 | the label shows the seconds left while the countdown is positive, and exactly "Resend Code" once it is not |
| Mfa.StartCountdown | desktop_app/ui/mfa_window.py:300-305 | the countdown starts at 60 with the button disabled and the timer running |
| Mfa.Tick | desktop_app/ui/mfa_window.py:307-315 | each timeout takes one second off; at zero the button is enabled, the timer stopped and the label reset, otherwise the label shows the new count |
| Mfa.CountdownRuns | desktop_app/ui/mfa_window.py:307-315 | a running countdown at c seconds keeps the button disabled through its first c-1 timeouts, and the c-th enables it and stops the timer |
| Mfa.CountdownEnablesResend | desktop_app/ui/mfa_window.py:252-255 | the Resend button becomes enabled at the 60th timeout after the countdown starts, and not before |
| Mfa.NoTickAfterEnabled | desktop_app/ui/mfa_window.py:312-313 | once the countdown has enabled the button no further timeout arrives |
| Mfa.Window.constructor | desktop_app/ui/mfa_window.py:32-60 | a new window has six empty fields, the focus on the first, no error or user, and the 60-second countdown running |
| Mfa.Window.MoveToNext | desktop_app/ui/mfa_window.py:261-265 | a digit in any field but the last moves the focus to the next field; nothing else changes |
| Mfa.Window.HandleBackspace | desktop_app/ui/mfa_window.py:267-272 | an emptied field moves the focus back and, through the `textChanged` signal that clearing re-emits, wipes the whole run of filled fields before it, resting at CascadeStop |
| Mfa.Window.HandleBackspaceCorrected | desktop_app/ui/mfa_window.py:267-272 | an emptied field moves the focus to the previous field and clears that one field |
| Mfa.Window.OnLastDigit | desktop_app/ui/mfa_window.py:274-280 | a digit in the last field schedules an automatic Verify exactly when all six fields are filled |
| Mfa.Window.Edit | desktop_app/ui/mfa_window.py:172-181 | typing a digit stores it and moves the focus on; deleting one wipes it and the filled fields before it, and in the first field only empties that field; filling the last field with all six set schedules a Verify; an unchanged text emits nothing |
| Mfa.Window.EditCorrected | desktop_app/ui/mfa_window.py:172-181 | with the corrected slot, deleting a digit clears that field and the previous one only, and the focus moves back one field |
| Mfa.Window.ClearCodeInputs | desktop_app/ui/mfa_window.py:362-365 | afterwards all six fields are empty, and nothing but the fields and the focus changes |
| Mfa.Window.OnVerify | desktop_app/ui/mfa_window.py:324-360 | an incomplete code shows the six-digit message and focuses the first empty field; a non-empty user accepts the window and keeps that user; a falsy user or a raised call shows its message, clears all fields, re-enables Verify and focuses the first field |
| Mfa.Window.ResendCode | desktop_app/ui/mfa_window.py:295-298 | resending restarts the 60-second countdown and changes nothing else |
| Mfa.Window.UpdateResendCountdown | desktop_app/ui/mfa_window.py:307-315 | a timeout updates the button as Tick says and changes nothing else |
| Mfa.CascadeAgrees | desktop_app/ui/mfa_window.py:267-272 | where the chain stops depends only on the fields before its starting point |
| Mfa.BackspaceWipesEarlierDigits | desktop_app/ui/mfa_window.py:267-272 | deleting the fifth digit of "12345" runs the chain down to field 0, so all five digits are wiped |
| Profile.FindRole | desktop_app/ui/profile/profile_page.py:124-128 | the index found is that of the combo entry equal to the capitalised role, and none is found exactly when no entry is spelt so |
| Profile.RoleIndexFor | desktop_app/ui/profile/profile_page.py:127-130 | the combo selects the entry matching the user's capitalised role when there is one and otherwise keeps its current index, always a valid one |
| Profile.ValidEmailShape | desktop_app/ui/profile/profile_page.py:253 | an email is accepted exactly when some '.' follows its last '@' |
| Profile.ProfileRequestRules | desktop_app/ui/profile/profile_page.py:234-268 | the checks run in order (a missing or falsy id, a blank name, a blank email, then the email's shape), and an update is sent exactly when all pass, carrying the user's id, the stripped name and email, the lower-cased role only for an admin, and the chosen picture |
| Profile.Apply | desktop_app/ui/profile/profile_page.py:280 | after the update the user keeps their id, has the new name and email, and their role changes only when the update carries one |
| Profile.PersonalInfoTab.constructor | desktop_app/ui/profile/profile_page.py:25-35 | the tab takes the parent's current user or falls back to the user shown, and shares one dict with the user shown exactly when the parent has no separate current user (the profile page hands its own user dict in both roles), fills name and email from the user dict (`''` when missing), selects the user's role, and enables the role combo only for an admin, for the tab's lifetime |
| Profile.PersonalInfoTab.Edit | desktop_app/ui/profile/profile_page.py:136-137 | the user can change name, email and picture, and the role only when the combo is enabled |
| Profile.PersonalInfoTab.ResetForm | desktop_app/ui/profile/profile_page.py:223-232 | name and email return to the stored user's, the stored role is reselected (or the index kept), and the new picture is dropped |
| Profile.PersonalInfoTab.SaveChanges | desktop_app/ui/profile/profile_page.py:234-289 | the role is sent only when the current user, as it stands before this save, is an admin; a refused form reports why and leaves the user dict alone; a failing API call reports failure and leaves it alone too; a successful one applies exactly the updates sent, and so changes the current user too when the two are one dict; the form itself is never changed |
| Profile.PersonalInfoTab.Send | desktop_app/ui/profile/profile_page.py:276-289 | a refusal is reported as is; updates change the stored user only when the call succeeds, and the current user follows it exactly when it is the same dict |
| Profile.StrippedRequest | desktop_app/ui/profile/profile_page.py:243-258 | the request depends on the name and the email only through their stripped text |
| Profile.SaveAfterResetIsStable | desktop_app/ui/profile/profile_page.py:223-280 | after a successful save, resetting the form and saving again sends the same id, name and email; the role goes out again exactly when the current user is then an admin (the saved user for a tab sharing its dict), and the whole request repeats whenever that admin status did not change |
| Profile.SelfDemotionIsFinal | desktop_app/ui/profile/profile_page.py:262-280 | an admin who saves their own profile as Manager or Retailer through a tab sharing their dict is no longer an admin to it, so every later save from that tab sends no role and they cannot make themselves admin again |
| Profile.PasswordRequestFor | desktop_app/ui/profile/profile_page.py:428-458 | the checks run in order (no id, no current password, no new password, the confirmation different, then too short), and a change is sent exactly when all pass, with the user's id and both passwords |
| Profile.SecurityTab.constructor | desktop_app/ui/profile/profile_page.py:295-304 | the security tab starts with three empty password fields |
| Profile.SecurityTab.Edit | desktop_app/ui/profile/profile_page.py:436-438 | the three fields hold what was typed |
| Profile.SecurityTab.ChangePassword | desktop_app/ui/profile/profile_page.py:428-468 | a refused change reports its reason, a failing call reports failure, and only a successful change clears the three fields; otherwise they keep what was typed |
| ReportGenerator.AsWrittenRange | api_server/core/report_generator.py:52-53 | comparing `created_at` with bare dates keeps a moment exactly when it lies in the range and is not past midnight of the end day |
| ReportGenerator.EndDaySaleDropped | api_server/core/report_generator.py:52-53 | a sale at 01:00 on the end day is dropped by the filter as written and kept by the intended one |
| ReportGenerator.DefaultStart | api_server/core/report_generator.py:34-35 | without a start date the range starts 30 days before today; a given one is used as is |
| ReportGenerator.DefaultEnd | api_server/core/report_generator.py:36-37 | without an end date the range ends today; a given one is used as is |
| ReportGenerator.SaleNewestFirstIsPreorder | api_server/core/report_generator.py:54 | newest-first by `created_at` is a total preorder, so the sort is well defined up to ties |
| ReportGenerator.SalesPerformanceReport | api_server/core/report_generator.py:20-85 | report 1 lists exactly the joined sale rows dated in the range (any time of the end day included), newest first; the income and quantity totals are those rows' sums; the transaction count is the number of distinct sale ids, at most the row count and zero only with no rows |
| ReportGenerator.InRangeRowsInRange | api_server/core/report_generator.py:52-54 | reordering the filtered rows keeps every row in the range |
| ReportGenerator.DetailedSalesTransactionReport | api_server/core/report_generator.py:307-322 | report 6 returns report 1 for the same range, including report 1's id and name |
| ReportGenerator.TotalStockByCategory | api_server/core/report_generator.py:100-104 | the grand total of batch stock equals the sum of the per-category totals |
| ReportGenerator.ShareAdd | api_server/core/report_generator.py:113 | the percentages of two stocks of the same positive total add up to the percentage of their sum |
| ReportGenerator.CategoryRows | api_server/core/report_generator.py:106-121 | one row per category, in order, carrying its id, name, product count, batch stock and share |
| ReportGenerator.CategoryRowsStock | api_server/core/report_generator.py:109-119 | the rows' stock adds up to the categories' stock |
| ReportGenerator.CategoryRowsShares | api_server/core/report_generator.py:113-120 | with a positive total the rows' shares add up to the categories' stock as a percentage of it |
| ReportGenerator.CategoryRowsTotals | api_server/core/report_generator.py:100-120 | the rows' stock adds up to the summary total, and the shares add up to exactly 100 when it is positive and are all 0 otherwise |
| ReportGenerator.CategoryDistributionReport | api_server/core/report_generator.py:88-131 | report 2 has one row per category, in order, with its product count, batch stock and share; the summary's total is the sum of the rows' stock, and the shares add up to 100 when it is positive and are all 0 otherwise |
| ReportGenerator.FirstMetrics | api_server/core/report_generator.py:148 | `.first()` finds a metrics row of the retailer when one exists, and none exactly when no row has that id |
| ReportGenerator.QuotaProgress | api_server/core/report_generator.py:151 | the progress is today's sales as a percentage of a positive quota, and 0 when the quota is not positive |
| ReportGenerator.RetailerRowFor | api_server/core/report_generator.py:152-161 | each row's progress agrees with its quota and current sales |
| ReportGenerator.RetailerRows | api_server/core/report_generator.py:146-161 | the loop adds at most one row per retailer, each consistent with its quota |
| ReportGenerator.RetailerRowsCount | api_server/core/report_generator.py:147-150 | exactly the retailers with a metrics record get a row |
| ReportGenerator.RetailerRowSource | api_server/core/report_generator.py:148-161 | every row is built from one retailer and that retailer's first metrics record |
| ReportGenerator.RankedBeforeIsPreorder | api_server/core/report_generator.py:164 | ranking by streak and then total sales, highest first, is a total preorder |
| ReportGenerator.RetailerPerformanceReport | api_server/core/report_generator.py:133-174 | report 3 holds one row per retailer or staff user that has metrics, ranked by streak then total sales, highest first; the summary counts every retailer (with or without metrics) and, as active today, the rows with positive current sales |
| ReportGenerator.EarliestExpiry | api_server/core/report_generator.py:214 | the earliest expiry is one of the expiring batches' dates and no later than any of them |
| ReportGenerator.AlertRowsStep | api_server/core/report_generator.py:195-227 | each product adds its alert, if it has one, after those of the products before it |
| ReportGenerator.AlertTagRules | api_server/core/report_generator.py:199-213 | OUT_OF_STOCK is raised exactly when the stock is below the minimum and zero, LOW_STOCK exactly when below it and non-zero, EXPIRING_SOON exactly when a batch with stock expires by the cutoff; a product with zero stock and a zero minimum is never flagged for stock |
| ReportGenerator.AlertForRules | api_server/core/report_generator.py:212-227 | a product gets an alert exactly when it has a tag; the alert is CRITICAL exactly when out of stock, and carries an expiration date exactly when some batch is expiring, namely the earliest one |
| ReportGenerator.AlertRowsMembers | api_server/core/report_generator.py:195-227 | the alerts are exactly as many as the products with a tag, and each has a non-empty status |
| ReportGenerator.CollectAlerts | api_server/core/report_generator.py:195-227 | the loop collects, in product order, the alert of every product that has one |
| ReportGenerator.LowStockAndExpirationAlertReport | api_server/core/report_generator.py:177-238 | report 4 lists the alerts for the cutoff `days_ahead` days after today; the summary counts all alerts, the critical ones and the warnings, and those two add up to the total |
| ReportGenerator.LogNewestFirstIsPreorder | api_server/core/report_generator.py:276 | newest-first by `log_time` is a total preorder |
| ReportGenerator.ManagerialActivityLogReport | api_server/core/report_generator.py:241-304 | report 5 lists exactly the log rows of admins and managers dated in the range, newest first, taking the range to cover every moment of the end day (the corrected bound of the first finding, for lines 274-275); it counts them, and the number of unique managers is the number of distinct manager ids among the rows, at most that count and zero only with no rows |
| ReportGenerator.ByFullNameIsPreorder | api_server/core/report_generator.py:335 | ordering by full name is a total preorder |
| ReportGenerator.UserAccountsReport | api_server/core/report_generator.py:325-357 | report 7 lists every user exactly once, ordered by full name; the summary counts all users, the admins, the managers and the retailers or staff, and those three never exceed the total |
| Text.Strip | desktop_app/ui/login_window.py:294 | `str.strip()` leaves no whitespace at either end, never lengthens the text, and gives `""` exactly for a blank text |
| Text.StripIsSlice | desktop_app/ui/login_window.py:294 | stripping removes whitespace at the two ends and nothing else |
| Text.StripIdempotent | desktop_app/ui/profile/profile_page.py:243 | stripping twice gives the same text as stripping once |
| Text.StripOrNone | desktop_app/ui/dialogs/category_form_dialog.py:196 | `s.strip() or None` is None exactly for a blank text, and otherwise the stripped, non-empty text |
| Text.AfterLast | desktop_app/ui/profile/profile_page.py:253 | `email.split('@')[-1]` is the part after the last '@', or the whole text when there is none |
| Text.JoinComma | api_server/core/report_generator.py:225 | joining with ", " gives `""` for no parts and a non-empty text when the first part is non-empty |

## Left out

- Network and API calls: each is a parameter (its response, or whether it succeeded); what the server does with a request is not part of this model.
- `get_next_sequence` (`utils/counters`) is not part of this model. It is modelled as "the counter of collection n is the document `n_id`; a missing counter counts as 0; increment it and return the new value". The `_id` suffix is an assumption: it is what makes the seeding script's keys (`stockbatch_id`, `productlog_id`, …) the counters of the lower-cased class names `save` passes. The rest is the reading the seeding script's messages give (`api_server/counters_init.py:31-32`). Atomicity under concurrent callers is not modelled.
- SQLAlchemy queries and joins: each report takes the joined rows as a sequence. `order_by` becomes a stable sort, one admissible order, so the order of rows that tie on the sort key is not modelled.
- `round(..., 2)` and floating point: totals and percentages are exact reals, and prices are whole cents. `int(price * 100)` is modelled as the cents the spin box shows, and float sort keys as those cents.
- Clocks: `date.today()` and `datetime.now()` are a `today` parameter. Dates are day numbers on the server. In the client, dates are ISO texts, with `QDate` parsing and `format_date` given as functions.
- Text.Lower: only ASCII letters are lower-cased; Python's full Unicode case mapping is not modelled.
- Text.Capitalize: only ASCII letters change case, as for Text.Lower.
- Widget construction, layouts, styles, icons, fonts, `center_window`, `selectAll`, window dragging and matplotlib drawing (chart colours, labels, the empty-chart text) are not modelled. A chart is its series; a grid is its (row, column) cells.
- Qt signal delivery is modelled only where a slot's effect depends on it: combo-box index changes, `textChanged` in the MFA fields, button toggles.
- QTimer scheduling: the MFA window's 300 ms automatic Verify is a flag saying it was scheduled. Each resend-timer timeout is one call.
- The dashboard's `DataLoaderThread` and `load_data` (a background request) are not modelled; the chart updates take the response's lists.
- The MFA window's `send_mfa_code` (email delivery) is not modelled; resending only restarts the countdown.
- File I/O: image uploads, the 5 MB size check, base64 encoding and the profile picture's bytes are modelled as given paths, encodings or a success flag.
- `QSettings`: a map restricted to the two keys the login window uses.
- A response key present with the value `None` is modelled as a missing key. The exceptions are ids, batch expirations and the stock text of `delete_product` on the product detail page, where the two show differently in the source (`QtWidgets.Field`, `BatchRecords.Expiration`, `ProductDetail.ProductStockText`).
- ProductList.StockKey: a `None` `stock` with a falsy `stock_level` is read as 0. The source's sort key is then `None`, and sorting it against integers raises `TypeError` (product_list.py:247-249).
- ProductForm.LoadedStock: a `None` `stock` (after a falsy `stock_level`) or a `None` `min_stock_level` is read as missing, which gives 0 or 5. The source passes `None` to `setValue`, which raises (product_form.py:196-197). The same holds for a `None` price at line 195.
- A `None` category description passed to `.lower()` in the category filter would raise; the model reads a missing description as `""`.
- The slot exceptions caught by the pages' `try` blocks are modelled only where the source handles them: a failed request in a load, save or delete.
- Loads that `__init__` runs take their responses as constructor parameters. The product form's `load_categories` and `load_product_data` are folded into its constructor. The categories page, the batch selector and the product detail page call their `Load…` method from the constructor.
- ProductDetail.Page.constructor: PyQt 6 handles an exception raised in a slot, with no `sys.excepthook` installed, by ending the application. The model records the raise in `slotRaised` and describes the page that would remain if execution went on.
- ProductDetail.Page.constructor: `load_product_details` (product_detail.py:284), which only fills labels and the image, is not modelled.
- ProductForm.LoadedPriceSentInHundredths: the form reads the API's price as whole units (`setValue(float(price))`, product_form.py:195), as the product card and the detail page do when they display it. It sends `int(value * 100)` (line 280). The server's product route is not part of this model. If that route stores the number it receives, every save multiplies the price by 100. The model counts hundredths exactly, so the float truncation of `int(value * 100)` (0.29 gives 28) is not modelled either.
- The `QDialog` name in `StockBatchSelector.delete_batch` (`desktop_app/ui/components/stock_batch_selector.py:230`) is not imported in that file. The model goes only as far as the confirmation text.
- The product form's fallback from `image_path` to the `image` key is folded into one image path.
- `get_category_data` and `get_product_data` (plain accessors no modelled code calls), `view_product_details` and the edit dialogs' widget wiring are not modelled.
- Login.Window.OnLogin: requires that the window has not been accepted yet, since an accepted dialog is closed and cannot be clicked.
- Profile.SecurityTab.ChangePassword: `AppConfig.MIN_PASSWORD_LENGTH` is the parameter `minLength`; its configured value is not part of this model.
- Sidebar.Bar.constructor: a switch callback is a flag, and the calls it receives are a log of tab indices.
- TabWidget.Widget.AddTab: a tab's page is an opaque value.
- The mapping from the sort combo's text to a sort order (`ProductList.SortOrderOf`) carries no contract of its own; the sort it selects is specified by `ProductList.Page.FilterProducts`.

## Findings

| source | as written | input that shows it | evidently intended | confidence | as-written member | corrected member |
|---|---|---|---|---|---|---|
| api_server/core/report_generator.py:52-53 | `Sale.created_at` (a datetime) is compared with the bare `end_date`, i.e. midnight at the start of the end day (likewise `ProductLog.log_time` at lines 274-275) | a sale at 01:00 on the end day of the range | every moment of the end day is in the range | high, not executed | ReportGenerator.EndDaySaleDropped | ReportGenerator.SalesPerformanceReport |
| desktop_app/ui/pages/products/product_list.py:44-45 | `__init__` calls `load_products` before `load_categories`, so the first load maps every product's category through an empty table | a product of category 3 with category 3 named "Drinks" is labelled "Uncategorized" | each product shows its category's name from the first load | high, not executed | ProductList.FirstLoadLosesCategoryNames | ProductList.Page.InitCorrected |
| desktop_app/ui/pages/products/product_detail.py:444-480 | `init_ui` connects `on_batch_selected` and calls `load_batches` before it creates the batch buttons; the first `addItem` runs the slot, which raises on the missing `edit_batch_btn`, and the buttons are then created disabled | a product with one batch of 5 units: the page opens with that batch selected and Edit disabled (or the application ends on the slot's exception) | the buttons exist before the first load and describe the selected batch | high, not executed | ProductDetail.FirstLoadLeavesButtonsDisabled | ProductDetail.Page.Corrected |
| desktop_app/ui/pages/products/product_detail.py:575-579 | a failed `load_batches` refills the combo box with the error entry while the OLD batches are still held, and only then sets `self.batches = []`; the `addItem` fires the slot, which sets the buttons from the old first batch | one batch of 5 units listed, then a reload that fails: Edit and Dispose are enabled with no batch held | a failed reload leaves nothing selectable or actionable | medium, not executed | ProductDetail.StaleButtonsAfterFailedLoad | ProductDetail.Page.LoadBatchesCorrected |
| desktop_app/ui/components/stock_batch_selector.py:158-161 | a failed `load_batches` clears the list but keeps `self.batches` and the enabled buttons | one batch listed, then a reload that fails, then `get_selected_batch` at index 0 | a failed reload leaves no batch selectable | medium, not executed | StockBatchSelector.StaleBatchAfterFailedLoad | StockBatchSelector.Selector.LoadBatchesCorrected |
| desktop_app/ui/mfa_window.py:267-272 | `handle_backspace` clears the previous field, which re-emits `textChanged("")` there and runs `handle_backspace` again, so the chain wipes every filled field before the one emptied | fields "1","2","3","4","5","": deleting the "5" empties all five fields and moves the focus to the first | deleting a digit moves the focus back one field and clears only that field | medium, not executed | Mfa.BackspaceWipesEarlierDigits | Mfa.Window.EditCorrected |
