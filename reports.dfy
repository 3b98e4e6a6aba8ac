/**
 * The reports page's request: the report type chosen in the combo box and
 * the date range sent with it.
 */
module Reports {
  /** The combo box's entries, in order. */
  const ReportLabels: seq<string> := [
    "Sales Performance", "Category Distribution", "Retailer Performance", "Alerts",
    "Managerial Activity", "Transactions", "User Accounts"]

  /** The API's report type for each entry, in the same order. */
  const ReportTypes: seq<string> := [
    "sales-performance", "category-distribution", "retailer-performance", "alerts",
    "managerial-activity", "transactions", "user-accounts"]

  /** The report types that take a date range. */
  const DateBasedReports: seq<string> := ["sales-performance", "transactions"]

  /**
   * `get_report_type_string()` for the combo box's current index (which Qt
   * keeps at -1 or above): `report_types[i]` when `i < 7`, where Python reads
   * a negative index from the end, and "sales-performance" beyond the list.
   */
  function ReportType(index: int): (t: string)
    requires index >= -1
    ensures 0 <= index < |ReportTypes| ==> t == ReportTypes[index]
    ensures index == -1 ==> t == "user-accounts"
    ensures index >= |ReportTypes| ==> t == "sales-performance"
    ensures t in ReportTypes
  {
    if index < |ReportTypes| then
      if index >= 0 then ReportTypes[index] else ReportTypes[|ReportTypes| + index]
    else "sales-performance"
  }

  /** Every entry of the combo box selects its own report type, and no two entries the same one. */
  lemma ReportTypesMatchEntries(i: int, j: int)
    requires 0 <= i < |ReportLabels| && 0 <= j < |ReportLabels|
    ensures |ReportTypes| == |ReportLabels|
    ensures ReportType(i) == ReportTypes[i]
    ensures i != j ==> ReportType(i) != ReportType(j)
  {
  }

  /**
   * `get_report_params()`: `start_date` and `end_date`, as the two pickers
   * show them, and only for the date-based reports.
   */
  function ReportParams(index: int, startDate: string, endDate: string): (params: map<string, string>)
    requires index >= -1
    ensures ReportType(index) in DateBasedReports ==> params == map["start_date" := startDate, "end_date" := endDate]
    ensures ReportType(index) !in DateBasedReports ==> params == map[]
  {
    if ReportType(index) in DateBasedReports then map["start_date" := startDate, "end_date" := endDate] else map[]
  }

  /** Only sales performance (also the fallback for an index past the list) and transactions carry dates. */
  lemma DatesOnlyForDateBasedReports(index: int, startDate: string, endDate: string)
    requires index >= -1
    ensures "start_date" in ReportParams(index, startDate, endDate) <==> index == 0 || index == 5 || index >= 7
    ensures "end_date" in ReportParams(index, startDate, endDate) <==> "start_date" in ReportParams(index, startDate, endDate)
  {
    if 0 <= index < 7 {
      assert ReportType(index) == ReportTypes[index];
    }
  }
}
