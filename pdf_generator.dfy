/**
 * The report PDF generator of the frontend, without its page layout: where the
 * report data comes from, which layout a report type gets, the row flattening of
 * the generic layout, and the classifications and counts its tables print.
 */
module PdfGenerator {
  import opened Basics
  import opened Text

  // ----- Generic layout: flattening a JSON object into rows -----

  /** A JSON value; numbers are integers here. */
  datatype Json =
    | Null
    | Bool(b: bool)
    | Num(n: int)
    | Str(s: string)
    | Arr(items: seq<Json>)
    | Obj(entries: seq<(string, Json)>)

  const OBJECT_TEXT: string := "[object Object]"

  /** `value?.toString() || ''`: null is empty, an array joins its elements with commas. */
  function ToText(v: Json): string
    decreases v, 1, 0
  {
    match v
    case Null => ""
    case Bool(b) => if b then "true" else "false"
    case Num(n) => IntToString(n)
    case Str(s) => s
    case Arr(items) => JoinFrom(v, 0)
    case Obj(_) => OBJECT_TEXT
  }

  /** `Array.prototype.toString` from element `i` on; a null element is empty. */
  function JoinFrom(v: Json, i: nat): string
    requires v.Arr? && i <= |v.items|
    decreases v, 0, |v.items| - i
  {
    if i == |v.items| then ""
    else
      var head := ToText(v.items[i]);
      if i + 1 == |v.items| then head else head + "," + JoinFrom(v, i + 1)
  }

  /** The key of a row: the prefix and a dot, when the prefix is not empty, then the key. */
  function Extend(prefix: string, key: string): (r: string)
    ensures |prefix| > 0 ==> r == prefix + "." + key
    ensures |prefix| == 0 ==> r == key
  {
    (if |prefix| > 0 then prefix + "." else "") + key
  }

  /** The number of rows an object's entries from `i` on give: one per non-object leaf. */
  function LeavesFrom(v: Json, i: nat): nat
    requires v.Obj? && i <= |v.entries|
    decreases v, |v.entries| - i
  {
    if i == |v.entries| then 0
    else
      var value := v.entries[i].1;
      (if value.Obj? then LeavesFrom(value, 0) else 1) + LeavesFrom(v, i + 1)
  }

  /**
   * `flattenObject` on the entries from `i` on, in key order: a nested object gives its
   * own rows under the extended prefix, anything else one row with its text. Under a
   * non-empty prefix every key starts with the prefix and a dot.
   */
  function FlattenFrom(v: Json, i: nat, prefix: string): (rows: seq<(string, string)>)
    requires v.Obj? && i <= |v.entries|
    ensures |rows| == LeavesFrom(v, i)
    ensures |prefix| > 0 ==> forall k :: 0 <= k < |rows| ==> prefix + "." <= rows[k].0
    decreases v, |v.entries| - i
  {
    if i == |v.entries| then []
    else
      var (key, value) := v.entries[i];
      var here :=
        if value.Obj? then FlattenFrom(value, 0, Extend(prefix, key))
        else [(Extend(prefix, key), ToText(value))];
      var rest := FlattenFrom(v, i + 1, prefix);
      assert |prefix| > 0 ==> forall k :: 0 <= k < |here| ==> prefix + "." <= here[k].0 by {
        if |prefix| > 0 {
          forall k | 0 <= k < |here| ensures prefix + "." <= here[k].0 {
            var p := Extend(prefix, key);
            assert prefix + "." <= p;
            if value.Obj? {
              assert p + "." <= here[k].0;
              assert (p + ".")[..|prefix + "."|] == prefix + ".";
            }
          }
        }
      }
      here + rest
  }

  /** The rows of the generic table of a report object. */
  function Rows(data: Json): (rows: seq<(string, string)>)
    requires data.Obj?
    ensures |rows| == LeavesFrom(data, 0)
  {
    FlattenFrom(data, 0, "")
  }

  /**
   * An object without nested objects gives one row per entry, in key order, keyed by
   * the prefixed key and valued by the entry's text.
   */
  lemma {:induction false} FlatObjectRows(v: Json, i: nat, prefix: string)
    requires v.Obj? && i <= |v.entries|
    requires forall j :: i <= j < |v.entries| ==> !v.entries[j].1.Obj?
    ensures |FlattenFrom(v, i, prefix)| == |v.entries| - i
    ensures forall k :: 0 <= k < |v.entries| - i ==>
      FlattenFrom(v, i, prefix)[k] == (Extend(prefix, v.entries[i + k].0), ToText(v.entries[i + k].1))
    decreases |v.entries| - i
  {
    if i < |v.entries| {
      FlatObjectRows(v, i + 1, prefix);
    }
  }

  /** An object whose nested objects are all empty yields no rows, so the report says there is no data. */
  lemma EmptyNestedObjectNoRows(key: string)
    ensures Rows(Obj([(key, Obj([]))])) == []
  {
    var v := Obj([(key, Obj([]))]);
    assert FlattenFrom(Obj([]), 0, Extend("", key)) == [];
    assert FlattenFrom(v, 1, "") == [];
  }

  // ----- Inventory location table -----

  datatype LocationStatus = Full | Busy | Available

  /**
   * The status column: at least 90 per cent used is Full, at least 70 Busy, anything
   * else Available. `None` is a location object with no utilization key, which compares
   * false both ways; a null utilization, which compares as 0 and so is counted available
   * as well, is not what `None` stands for here.
   */
  function StatusOf(utilization: Option<int>): (s: LocationStatus)
    ensures s == Full <==> utilization.Some? && utilization.value >= 90
    ensures s == Busy <==> utilization.Some? && 70 <= utilization.value < 90
    ensures s == Available <==> utilization.None? || utilization.value < 70
  {
    if utilization.Some? && utilization.value >= 90 then Full
    else if utilization.Some? && utilization.value >= 70 then Busy
    else Available
  }

  /** The filter of the full-locations count. */
  predicate CountedFull(u: Option<int>) { u.Some? && u.value >= 90 }

  /** The filter of the available-locations count. */
  predicate CountedAvailable(u: Option<int>) { u.Some? && u.value < 70 }

  predicate Unmeasured(u: Option<int>) { u.None? }

  predicate ShownFull(u: Option<int>) { StatusOf(u) == Full }

  predicate ShownBusy(u: Option<int>) { StatusOf(u) == Busy }

  predicate ShownAvailable(u: Option<int>) { StatusOf(u) == Available }

  /**
   * The capacity analysis agrees with the status column: the full count is the number
   * of rows shown Full, and the available count is the number shown Available less the
   * locations without a utilization; the three statuses cover every location once.
   */
  lemma {:induction false} LocationCounts(us: seq<Option<int>>)
    ensures Count(us, CountedFull) == Count(us, ShownFull)
    ensures Count(us, CountedAvailable) + Count(us, Unmeasured) == Count(us, ShownAvailable)
    ensures Count(us, ShownFull) + Count(us, ShownBusy) + Count(us, ShownAvailable) == |us|
  {
    if us != [] {
      LocationCounts(us[..|us| - 1]);
    }
  }

  // ----- Turnaround table -----

  predicate Excellent(d: int) { d <= 3 }

  predicate Good(d: int) { 3 < d <= 7 }

  predicate Average(d: int) { 7 < d <= 14 }

  predicate NeedsImprovement(d: int) { d > 14 }

  /** The four turnaround buckets split the task list: every task falls in exactly one. */
  lemma {:induction false} TurnaroundBucketsPartition(days: seq<int>)
    ensures Count(days, Excellent) + Count(days, Good) + Count(days, Average) + Count(days, NeedsImprovement) == |days|
    ensures forall d :: (Excellent(d) || Good(d) || Average(d) || NeedsImprovement(d))
    ensures forall d :: !(Excellent(d) && Good(d)) && !(Good(d) && Average(d)) && !(Average(d) && NeedsImprovement(d))
  {
    if days != [] {
      TurnaroundBucketsPartition(days[..|days| - 1]);
    }
  }

  // ----- Outstanding payments table -----

  /** An outstanding-payments row, as far as the overdue counts read it. */
  datatype OutstandingRow = OutstandingRow(taskId: string, daysOverdue: int)

  /** The "Overdue Tasks" filter. */
  predicate Overdue(r: OutstandingRow) { r.daysOverdue > 0 }

  /** The critical overdue filter: more than a week. */
  predicate CriticalOverdue(r: OutstandingRow) { r.daysOverdue > 7 }

  /** Every critically overdue task is an overdue task, so there are never more of them. */
  lemma {:induction false} CriticalWithinOverdue(rows: seq<OutstandingRow>)
    ensures forall r :: r in Filter(rows, CriticalOverdue) ==> r in Filter(rows, Overdue)
    ensures Count(rows, CriticalOverdue) <= Count(rows, Overdue)
  {
    if rows != [] {
      var init := rows[..|rows| - 1];
      CriticalWithinOverdue(init);
      assert Filter(rows, CriticalOverdue) == Filter(init, CriticalOverdue)
        + (if CriticalOverdue(rows[|rows| - 1]) then [rows[|rows| - 1]] else []);
      assert Filter(rows, Overdue) == Filter(init, Overdue)
        + (if Overdue(rows[|rows| - 1]) then [rows[|rows| - 1]] else []);
    }
  }

  // ----- Where the data comes from -----

  const BASE_URL: string := "http://localhost:8000"
  const DATE_RANGE_QUERY: string := "?date_range=last_30_days"

  /** The report ids with an endpoint of their own. */
  const ENDPOINTS: seq<(string, string)> := [
    ("revenue-summary", "/api/reports/revenue-summary/"),
    ("outstanding-payments", "/api/reports/outstanding-payments/"),
    ("payment-methods", "/api/reports/payment-methods/"),
    ("task-status", "/api/reports/task-status/"),
    ("turnaround-time", "/api/reports/turnaround-time/"),
    ("workload", "/api/reports/technician-workload/"),
    ("performance", "/api/reports/technician-performance/"),
    ("inventory-location", "/api/reports/laptops-in-shop/")]

  /** The ids that are given the default date range, as listed. */
  const DATE_RANGE_REPORTS_AS_WRITTEN: seq<string> := ["revenue-summary", "technician-performance", "payment-methods"]

  /** The ids that are given the default date range, naming the performance report by its id. */
  const DATE_RANGE_REPORTS: seq<string> := ["revenue-summary", "performance", "payment-methods"]

  /** The request URL as built: the query is added for the listed ids. */
  function UrlAsWritten(reportId: string, endpoint: string): (url: string)
    ensures reportId in DATE_RANGE_REPORTS_AS_WRITTEN ==> url == BASE_URL + endpoint + DATE_RANGE_QUERY
    ensures reportId !in DATE_RANGE_REPORTS_AS_WRITTEN ==> url == BASE_URL + endpoint
  {
    BASE_URL + endpoint + (if reportId in DATE_RANGE_REPORTS_AS_WRITTEN then DATE_RANGE_QUERY else "")
  }

  /**
   * "technician-performance" is an endpoint path, not a report id: no id maps to an
   * endpoint under it, and the performance report is fetched without its date range.
   */
  lemma PerformanceFetchedWithoutRange()
    ensures Lookup(ENDPOINTS, "technician-performance").None?
    ensures Lookup(ENDPOINTS, "performance") == Some("/api/reports/technician-performance/")
    ensures UrlAsWritten("performance", "/api/reports/technician-performance/")
      == BASE_URL + "/api/reports/technician-performance/"
  {
    NoEndpointUnderPath();
    PerformanceEndpoint();
    assert "performance" !in DATE_RANGE_REPORTS_AS_WRITTEN by {
      assert "performance" != "technician-performance";
      assert "performance"[0] != "revenue-summary"[0] && "performance" != "payment-methods";
    }
  }

  lemma NoEndpointUnderPath()
    ensures Lookup(ENDPOINTS, "technician-performance").None?
  {
    var k := "technician-performance";
    assert forall i :: 0 <= i < |ENDPOINTS| ==> |ENDPOINTS[i].0| != |k|;
    LookupMeaning(ENDPOINTS, k);
  }

  lemma PerformanceEndpoint()
    ensures Lookup(ENDPOINTS, "performance") == Some("/api/reports/technician-performance/")
  {
    var k := "performance";
    assert forall j :: 0 <= j < 6 ==> |ENDPOINTS[j].0| != |k| || ENDPOINTS[j].0[0] != k[0];
    LookupAt(ENDPOINTS, 6, k);
  }

  /** The request URL with the date range for the three date-ranged reports. */
  function Url(reportId: string, endpoint: string): (url: string)
    ensures reportId in DATE_RANGE_REPORTS ==> url == BASE_URL + endpoint + DATE_RANGE_QUERY
    ensures reportId !in DATE_RANGE_REPORTS ==> url == BASE_URL + endpoint
  {
    BASE_URL + endpoint + (if reportId in DATE_RANGE_REPORTS then DATE_RANGE_QUERY else "")
  }

  /** Every date-ranged report has an endpoint and is fetched with the date range. */
  lemma DateRangedReportsFetchedWithRange(reportId: string)
    requires reportId in DATE_RANGE_REPORTS
    ensures Lookup(ENDPOINTS, reportId).Some?
    ensures Url(reportId, Lookup(ENDPOINTS, reportId).value) == BASE_URL + Lookup(ENDPOINTS, reportId).value + DATE_RANGE_QUERY
  {
    assert ENDPOINTS[0].0 == "revenue-summary" && ENDPOINTS[2].0 == "payment-methods" && ENDPOINTS[6].0 == "performance";
  }

  /** A report the page already shows. */
  datatype SelectedReport = SelectedReport(id: string, report: Option<Json>, reportType: string)

  /** Where `generatePDF` takes the data from. */
  datatype DataSource = FromSelection(report: Option<Json>, reportType: string) | Fetch(url: string) | NoEndpoint

  /**
   * The report on display when it is the one asked for; otherwise a fetch from the
   * id's endpoint, with the query the page adds as written, and for an id
   * without one nothing at all: no PDF is produced.
   */
  function SourceOf(reportId: string, selected: Option<SelectedReport>): (s: DataSource)
    ensures selected.Some? && selected.value.id == reportId ==>
      s == FromSelection(selected.value.report, selected.value.reportType)
    ensures s.NoEndpoint? <==> !(selected.Some? && selected.value.id == reportId) && Lookup(ENDPOINTS, reportId).None?
    ensures s.Fetch? ==> s.url == UrlAsWritten(reportId, Lookup(ENDPOINTS, reportId).value)
  {
    if selected.Some? && selected.value.id == reportId then
      FromSelection(selected.value.report, selected.value.reportType)
    else
      match Lookup(ENDPOINTS, reportId)
      case None => NoEndpoint
      case Some(endpoint) => Fetch(UrlAsWritten(reportId, endpoint))
  }

  /** The layouts the report type selects. */
  datatype Layout =
    | TaskStatusLayout | PerformanceLayout | PaymentMethodsLayout | WorkloadLayout
    | OutstandingLayout | RevenueLayout | TurnaroundLayout | InventoryLayout | GenericLayout

  const LAYOUTS: seq<(string, Layout)> := [
    ("task_status", TaskStatusLayout),
    ("technician_performance", PerformanceLayout),
    ("payment_methods", PaymentMethodsLayout),
    ("technician_workload", WorkloadLayout),
    ("outstanding_payments", OutstandingLayout),
    ("revenue_summary", RevenueLayout),
    ("turnaround_time", TurnaroundLayout),
    ("inventory_location", InventoryLayout)]

  /** The `switch` on the report type: a known type gets its layout, any other the generic one. */
  function LayoutOf(reportType: string): (l: Layout)
    ensures l == GenericLayout <==> forall i :: 0 <= i < |LAYOUTS| ==> LAYOUTS[i].0 != reportType
    ensures l != GenericLayout ==> exists i :: 0 <= i < |LAYOUTS| && LAYOUTS[i] == (reportType, l)
  {
    assert forall i :: 0 <= i < |LAYOUTS| ==> LAYOUTS[i].1 != GenericLayout;
    LookupMeaning(LAYOUTS, reportType);
    Lookup(LAYOUTS, reportType).GetOr(GenericLayout)
  }
}
