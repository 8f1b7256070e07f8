/**
 * The custom report generator: it narrows the task table to a date window, then
 * renders one row per task holding exactly the selected fields.
 */
module ReportServices {
  import opened Basics
  import opened Text
  import opened TaskModels
  import opened FinancialModels
  import opened DateRanges
  import Calendar

  /** The posted report configuration; each entry may be absent. */
  datatype Config = Config(
    dateRange: Option<string>,
    customStartDate: Option<string>,
    customEndDate: Option<string>,
    selectedType: Option<string>,
    selectedFields: seq<string>)

  /** A present, non-empty text value (truthiness of a Python string). */
  predicate Given(v: Option<string>) { v.Some? && v.value != "" }

  function RangeOf(config: Config): string { config.dateRange.GetOr("last_30_days") }

  function TypeOf(config: Config): string { config.selectedType.GetOr("operational") }

  /**
   * The window `_apply_date_filters` filters on. Custom dates are text that the
   * database layer reads as `YYYY-MM-DD`; `None` stands for the error a malformed one raises.
   */
  function ReportWindow(config: Config, today: int): (w: Option<Window>)
    ensures !(RangeOf(config) == "custom" && Given(config.customStartDate) && Given(config.customEndDate)) ==>
      w == Some(ServicesWindow(RangeOf(config), None, None, today))
    ensures RangeOf(config) == "custom" && Given(config.customStartDate) && Given(config.customEndDate) ==>
      (w.Some? <==> Calendar.ParseIsoDate(config.customStartDate.value).Some? && Calendar.ParseIsoDate(config.customEndDate.value).Some?)
    ensures w.Some? ==> w.value.Between?
  {
    var range := RangeOf(config);
    if range == "custom" && Given(config.customStartDate) && Given(config.customEndDate) then
      match (Calendar.ParseIsoDate(config.customStartDate.value), Calendar.ParseIsoDate(config.customEndDate.value))
      case (Some(s), Some(e)) => Some(ServicesWindow(range, Some(Calendar.Ordinal(s)), Some(Calendar.Ordinal(e)), today))
      case _ => None
    else Some(ServicesWindow(range, None, None, today))
  }

  /** Some payment of task `key` is dated inside the window. */
  predicate HasPaymentIn(payments: seq<Payment>, key: string, w: Window) {
    exists i :: 0 <= i < |payments| && payments[i].task == Some(key) && InWindow(w, payments[i].date)
  }

  /**
   * Financial and revenue reports keep a task created in the window or paid in it;
   * every other report type keeps the tasks created in the window.
   */
  predicate Selected(key: string, t: Task, payments: seq<Payment>, w: Window, reportType: string) {
    InWindow(w, t.createdAt) || (reportType in {"financial", "revenue"} && HasPaymentIn(payments, key, w))
  }

  /** The queryset after the date filter (and `distinct`), in its original order. */
  function SelectTasks(keys: seq<string>, tasks: map<string, Task>, payments: seq<Payment>, w: Window, reportType: string)
    : (r: seq<string>)
    requires forall i :: 0 <= i < |keys| ==> keys[i] in tasks
    ensures forall k :: k in r <==> k in keys && Selected(k, tasks[k], payments, w, reportType)
    ensures multiset(r) <= multiset(keys)
  {
    if keys == [] then []
    else
      var init := keys[..|keys| - 1];
      var k := keys[|keys| - 1];
      assert keys == init + [k];
      SelectTasks(init, tasks, payments, w, reportType)
        + (if Selected(k, tasks[k], payments, w, reportType) then [k] else [])
  }

  /** Filtering a list without repeats leaves a list without repeats. */
  lemma {:induction false} NoRepeatsSelected(keys: seq<string>, tasks: map<string, Task>, payments: seq<Payment>, w: Window, reportType: string)
    requires forall i :: 0 <= i < |keys| ==> keys[i] in tasks
    requires Distinct(keys)
    ensures Distinct(SelectTasks(keys, tasks, payments, w, reportType))
    decreases |keys|
  {
    if keys != [] {
      var init := keys[..|keys| - 1];
      var k := keys[|keys| - 1];
      DistinctInit(keys);
      NoRepeatsSelected(init, tasks, payments, w, reportType);
      var front := SelectTasks(init, tasks, payments, w, reportType);
      assert k !in front;
      if Selected(k, tasks[k], payments, w, reportType) {
        DistinctSnoc(front, k);
      } else {
        assert SelectTasks(keys, tasks, payments, w, reportType) == front + [];
      }
    }
  }

  // ----- Field rendering -----

  /**
   * A rendered report cell: text, a date (shown as `YYYY-MM-DD`), or the string form
   * of a task attribute this model does not carry.
   */
  datatype Cell = Str(s: string) | IsoDay(day: int) | Opaque(attribute: string)

  /** The tables a row is rendered from. */
  datatype Tables = Tables(
    tasks: map<string, Task>,
    payments: seq<Payment>,
    items: seq<CostItem>,
    users: map<nat, User>,
    customers: map<nat, string>)

  /** Case-insensitive substring test, as `icontains` does for ASCII text. */
  predicate IContains(hay: string, needle: string) {
    Contains(LowerString(hay), needle)
  }

  /** Items whose category or description mentions `word`. */
  function Mentioning(items: seq<CostItem>, word: string): (r: seq<CostItem>)
    ensures forall i :: 0 <= i < |r| ==> IContains(r[i].category, word) || IContains(r[i].description, word)
    ensures forall c :: c in r <==> c in items && (IContains(c.category, word) || IContains(c.description, word))
  {
    if items == [] then []
    else
      var c := items[|items| - 1];
      Mentioning(items[..|items| - 1], word)
        + (if IContains(c.category, word) || IContains(c.description, word) then [c] else [])
  }

  /** The matching items are exactly the table filtered on the word, in table order. */
  lemma {:induction false} MentioningIsFilter(items: seq<CostItem>, word: string)
    ensures Mentioning(items, word)
      == Filter(items, (c: CostItem) => IContains(c.category, word) || IContains(c.description, word))
    decreases |items|
  {
    if items != [] {
      MentioningIsFilter(items[..|items| - 1], word);
    }
  }

  function Amounts(items: seq<CostItem>): seq<int> {
    if items == [] then [] else Amounts(items[..|items| - 1]) + [items[|items| - 1].amount]
  }

  /** `str(sum(item.amount for item in …))`: the integer 0 when nothing matches. */
  function SumText(items: seq<CostItem>): (s: string)
    ensures items == [] ==> s == "0"
  {
    if items == [] then "0" else CentsToString(Sum(Amounts(items)))
  }

  /**
   * `_calculate_turnaround_time`: days from intake to hand-over (today while still
   * open), less one workshop stay (to today while still away); `None` without an
   * intake date. Nothing keeps the result from being negative.
   */
  function ServiceTurnaround(t: Task, today: int): (d: Option<int>)
    ensures d.None? <==> t.dateIn.None?
    ensures d.Some? && t.workshopSentAt.None? ==> d.value == t.dateOut.GetOr(today) - t.dateIn.value
    ensures d.Some? && t.workshopSentAt.Some? ==>
      d.value == (t.dateOut.GetOr(today) - t.dateIn.value) - (t.workshopReturnedAt.GetOr(today) - t.workshopSentAt.value)
  {
    if t.dateIn.None? then None
    else
      var total := t.dateOut.GetOr(today) - t.dateIn.value;
      var away := if t.workshopSentAt.Some? then t.workshopReturnedAt.GetOr(today) - t.workshopSentAt.value else 0;
      Some(total - away)
  }

  /** Whether a task counts as finished for the "(ongoing)" suffix. */
  predicate Closed(t: Task) { t.status in {Completed, PickedUp} }

  function TurnaroundText(t: Task, today: int): (s: string)
    ensures t.dateIn.None? ==> s == "N/A"
    ensures t.dateIn.Some? && Closed(t) ==> s == IntToString(ServiceTurnaround(t, today).value) + " days"
    ensures t.dateIn.Some? && !Closed(t) ==>
      s == IntToString(ServiceTurnaround(t, today).value) + " days (ongoing)"
  {
    match ServiceTurnaround(t, today)
    case None => "N/A"
    case Some(days) => IntToString(days) + (if Closed(t) then " days" else " days (ongoing)")
  }

  /**
   * The cell of one selected field of a task, or `None` where computing it raises
   * (an unknown assigned user, or the age of a task with no intake date).
   */
  function FieldValue(tb: Tables, t: Task, field: string, today: int): (c: Option<Cell>)
    ensures field == "date_completed" ==>
      c == Some(if t.status == Completed && t.dateOut.Some? then IsoDay(t.dateOut.value) else Str("N/A"))
    ensures field == "days_in_system" ==> (c.None? <==> t.dateIn.None?)
    ensures field == "technician" && t.assignedTo.None? ==> c == Some(Str("Unassigned"))
  {
    if field == "task_id" then Some(Str(t.title))
    else if field == "customer_name" then
      Some(Str(if t.customer in tb.customers then tb.customers[t.customer] else "N/A"))
    else if field == "laptop_model" then Some(Str(t.laptopModel))
    else if field == "technician" then
      if t.assignedTo.None? then Some(Str("Unassigned"))
      else if t.assignedTo.value in tb.users then Some(Str(tb.users[t.assignedTo.value].FullName()))
      else None
    else if field == "status" then Some(Str(t.status.Label()))
    else if field == "date_in" then Some(if t.dateIn.Some? then IsoDay(t.dateIn.value) else Str("N/A"))
    else if field == "date_completed" then
      Some(if t.status == Completed && t.dateOut.Some? then IsoDay(t.dateOut.value) else Str("N/A"))
    else if field == "turnaround_time" then Some(Str(TurnaroundText(t, today)))
    else if field == "total_cost" then
      Some(Str(CentsToString(TotalCost(t.estimatedCost, ItemsOf(tb.items, t.title)))))
    else if field == "parts_cost" then Some(Str(SumText(Mentioning(ItemsOf(tb.items, t.title), "part"))))
    else if field == "labor_cost" then Some(Str(SumText(Mentioning(ItemsOf(tb.items, t.title), "labor"))))
    else if field == "payment_status" then Some(Str(t.paymentStatus.Label()))
    else if field == "urgency" then Some(Str(t.urgency))
    else if field == "location" then Some(Str(t.currentLocation))
    else if field == "estimated_cost" then
      Some(Str(if Truthy(t.estimatedCost) then CentsToString(t.estimatedCost.value) else "0.00"))
    else if field == "outstanding_balance" then
      Some(Str(CentsToString(OutstandingBalance(t.totalCost, PaymentAmounts(tb.payments, t.title)))))
    else if field == "paid_amount" then Some(Str(CentsToString(Sum(PaymentAmounts(tb.payments, t.title)))))
    else if field == "workshop_status" then
      Some(Str(if t.workshopStatus.Some? then t.workshopStatus.value.Label() else "N/A"))
    else if field == "days_in_system" then
      if t.dateIn.None? then None else Some(Str(IntToString(today - t.dateIn.value)))
    else Some(Opaque(field))
  }

  /** A field whose computation raises is reported as the text 'Error'. */
  function CellOf(tb: Tables, t: Task, field: string, today: int): (c: Cell)
    ensures FieldValue(tb, t, field, today).None? ==> c == Str("Error")
    ensures FieldValue(tb, t, field, today).Some? ==> c == FieldValue(tb, t, field, today).value
  {
    match FieldValue(tb, t, field, today)
    case Some(c) => c
    case None => Str("Error")
  }

  type Row = map<string, Cell>

  /** The row of one task: every selected field, each with its cell. */
  function RowOf(tb: Tables, t: Task, fields: seq<string>, today: int): (row: Row)
    ensures row.Keys == set f | f in fields
    ensures forall f :: f in row ==> row[f] == CellOf(tb, t, f, today)
  {
    if fields == [] then map[]
    else
      var f := fields[|fields| - 1];
      RowOf(tb, t, fields[..|fields| - 1], today)[f := CellOf(tb, t, f, today)]
  }

  /** One more field adds that field's cell to the row. */
  lemma RowOfSnoc(tb: Tables, t: Task, fields: seq<string>, k: nat, today: int)
    requires k < |fields|
    ensures RowOf(tb, t, fields[..k + 1], today) == RowOf(tb, t, fields[..k], today)[fields[k] := CellOf(tb, t, fields[k], today)]
  {
    assert fields[..k + 1][..k] == fields[..k];
  }

  /** Appending the next key's row keeps every row matched with its key. */
  lemma RowsExtend(tb: Tables, keys: seq<string>, fields: seq<string>, today: int, data: seq<Row>, row: Row)
    requires |data| < |keys|
    requires forall j :: 0 <= j < |keys| ==> keys[j] in tb.tasks
    requires forall j :: 0 <= j < |data| ==> data[j] == RowOf(tb, tb.tasks[keys[j]], fields, today)
    requires row == RowOf(tb, tb.tasks[keys[|data|]], fields, today)
    ensures forall j :: 0 <= j < |data| + 1 ==> (data + [row])[j] == RowOf(tb, tb.tasks[keys[j]], fields, today)
  {
  }

  /** A task with no intake date still gets a row; its age is the text 'Error'. */
  lemma ErrorCellKeepsRow(tb: Tables, t: Task, today: int)
    requires t.dateIn.None?
    ensures var row := RowOf(tb, t, ["task_id", "days_in_system"], today);
      row.Keys == {"task_id", "days_in_system"}
      && row["days_in_system"] == Str("Error") && row["task_id"] == Str(t.title)
  {
  }

  /** A date is reported as completed only for a Completed task that has left the shop. */
  lemma DateCompletedOnlyWhenCompleted(tb: Tables, t: Task, today: int)
    ensures CellOf(tb, t, "date_completed", today).IsoDay? <==> t.status == Completed && t.dateOut.Some?
  {
  }

  /**
   * A workshop stay longer than the whole repair gives a negative turnaround: one
   * task in for two days that was sent out ten days before intake and came back the
   * day after.
   */
  lemma TurnaroundCanBeNegative(t: Task, today: int)
    requires t.dateIn == Some(10) && t.dateOut == Some(12)
    requires t.workshopSentAt == Some(0) && t.workshopReturnedAt == Some(11)
    ensures ServiceTurnaround(t, today) == Some(-9)
  {
  }

  /** The report a generator returns: the rows and their count, or a failure with no rows. */
  datatype ReportResult = Success(data: seq<Row>, totalRecords: nat, reportType: string) | Failure

  /**
   * `ReportGenerator`: the configuration and the task queryset the date filter narrows
   * (task keys, in query order).
   */
  class ReportGenerator {
    const config: Config
    var queryset: seq<string>

    /** A generator starts from every task. */
    constructor(config: Config, taskKeys: seq<string>)
      ensures this.config == config && queryset == taskKeys
    {
      this.config := config;
      queryset := taskKeys;
    }

    /**
     * `_apply_date_filters`: narrow the queryset to the report window, or report the
     * error a malformed custom date raises (and leave the queryset alone).
     */
    method ApplyDateFilters(tasks: map<string, Task>, payments: seq<Payment>, today: int) returns (ok: bool)
      requires forall i :: 0 <= i < |queryset| ==> queryset[i] in tasks
      modifies this
      ensures ok <==> ReportWindow(config, today).Some?
      ensures forall i :: 0 <= i < |queryset| ==> queryset[i] in tasks
      ensures ok ==>
        queryset == SelectTasks(old(queryset), tasks, payments, ReportWindow(config, today).value, TypeOf(config))
      ensures !ok ==> queryset == old(queryset)
    {
      var w := ReportWindow(config, today);
      if w.None? {
        return false;
      }
      var selected := SelectTasks(queryset, tasks, payments, w.value, TypeOf(config));
      forall i | 0 <= i < |selected| ensures selected[i] in tasks {
        assert selected[i] in selected;
      }
      queryset := selected;
      return true;
    }

    /** The inner loop of `_build_queryset_data`: one task's row, field by field. */
    static method BuildRow(tb: Tables, task: Task, fields: seq<string>, today: int) returns (row: Row)
      ensures row == RowOf(tb, task, fields, today)
    {
      row := map[];
      var k := 0;
      while k < |fields|
        invariant 0 <= k <= |fields|
        invariant row == RowOf(tb, task, fields[..k], today)
      {
        var cell := FieldValue(tb, task, fields[k], today);
        RowOfSnoc(tb, task, fields, k, today);
        row := row[fields[k] := if cell.Some? then cell.value else Str("Error")];
        k := k + 1;
      }
      assert fields[..|fields|] == fields;
    }

    /** The outer loop of `_build_queryset_data`: one row per key, in order. */
    static method BuildRows(tb: Tables, keys: seq<string>, fields: seq<string>, today: int) returns (data: seq<Row>)
      requires forall i :: 0 <= i < |keys| ==> keys[i] in tb.tasks
      ensures |data| == |keys|
      ensures forall i :: 0 <= i < |data| ==> data[i] == RowOf(tb, tb.tasks[keys[i]], fields, today)
    {
      data := [];
      var i := 0;
      while i < |keys|
        invariant 0 <= i <= |keys|
        invariant |data| == i
        invariant forall j :: 0 <= j < i ==> data[j] == RowOf(tb, tb.tasks[keys[j]], fields, today)
      {
        var row := BuildRow(tb, tb.tasks[keys[i]], fields, today);
        RowsExtend(tb, keys, fields, today, data, row);
        data := data + [row];
        i := i + 1;
      }
    }

    /** `_build_queryset_data`: one row per task of the queryset, in order. */
    method BuildQuerysetData(tb: Tables, fields: seq<string>, today: int) returns (data: seq<Row>)
      requires forall i :: 0 <= i < |queryset| ==> queryset[i] in tb.tasks
      ensures |data| == |queryset|
      ensures forall i :: 0 <= i < |data| ==> data[i] == RowOf(tb, tb.tasks[queryset[i]], fields, today)
    {
      data := BuildRows(tb, queryset, fields, today);
    }

    /**
     * `generate_report`: filter, then render. A malformed custom date fails the whole
     * report with no rows; otherwise the record count is the number of rows.
     */
    method GenerateReport(tb: Tables, today: int) returns (r: ReportResult)
      requires forall i :: 0 <= i < |queryset| ==> queryset[i] in tb.tasks
      modifies this
      ensures r.Failure? <==> ReportWindow(config, today).None?
      ensures forall i :: 0 <= i < |queryset| ==> queryset[i] in tb.tasks
      ensures r.Success? ==>
        && queryset == SelectTasks(old(queryset), tb.tasks, tb.payments, ReportWindow(config, today).value, TypeOf(config))
        && r.totalRecords == |r.data| == |queryset|
        && r.reportType == TypeOf(config)
        && (forall i :: 0 <= i < |r.data| ==>
              r.data[i] == RowOf(tb, tb.tasks[queryset[i]], config.selectedFields, today))
    {
      var ok := ApplyDateFilters(tb.tasks, tb.payments, today);
      if !ok {
        return Failure;
      }
      var data := BuildQuerysetData(tb, config.selectedFields, today);
      r := Success(data, |data|, TypeOf(config));
    }
  }
}
