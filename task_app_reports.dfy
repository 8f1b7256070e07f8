/**
 * The task app's own report generator: a date window on the creation day, a filter
 * per report type, rows read off the task by attribute paths or computed, and a
 * summary of statuses, estimates and turnaround times.
 */
module TaskAppReports {
  import opened Basics
  import opened TaskModels
  import opened FinancialModels
  import opened DateRanges
  import Calendar
  import Text
  import ReportServices
  import PredefinedReports

  // ----- Date window and report type -----

  /**
   * `_build_date_filters`: a preset is a lower bound on the creation day; 'custom'
   * with both dates given is an inclusive range; anything else filters nothing.
   * `None` stands for the error the database raises on a malformed custom date.
   */
  function AppWindow(config: ReportServices.Config, today: int): (w: Option<Window>)
    ensures !(config.dateRange == Some("custom") && ReportServices.Given(config.customStartDate)
              && ReportServices.Given(config.customEndDate)) ==>
      w == Some(TaskAppWindow(config.dateRange, None, None, today))
    ensures w.Some? && config.dateRange.Some? && PresetDays(config.dateRange.value).Some? ==>
      w.value == From(today - PresetDays(config.dateRange.value).value)
    ensures w.None? ==> config.dateRange == Some("custom")
  {
    if config.dateRange == Some("custom") && ReportServices.Given(config.customStartDate)
       && ReportServices.Given(config.customEndDate) then
      match (Calendar.ParseIsoDate(config.customStartDate.value), Calendar.ParseIsoDate(config.customEndDate.value))
      case (Some(s), Some(e)) =>
        Some(TaskAppWindow(config.dateRange, Some(Calendar.Ordinal(s)), Some(Calendar.Ordinal(e)), today))
      case _ => None
    else Some(TaskAppWindow(config.dateRange, None, None, today))
  }

  /**
   * `_apply_report_type_filters`: financial reports drop tasks without an estimate,
   * operational ones keep Completed, In Progress and Pending tasks, performance ones
   * keep assigned tasks; any other type (or none) keeps every task.
   */
  predicate TypeKeeps(reportType: Option<string>, t: Task) {
    if reportType == Some("financial") then t.estimatedCost.Some?
    else if reportType == Some("operational") then t.status in {Completed, InProgress, Pending}
    else if reportType == Some("performance") then t.assignedTo.Some?
    else true
  }

  predicate AppSelected(t: Task, w: Window, reportType: Option<string>) {
    InWindow(w, t.createdAt) && TypeKeeps(reportType, t)
  }

  /** The filtered queryset, in its original order. */
  function AppSelect(keys: seq<string>, tasks: map<string, Task>, w: Window, reportType: Option<string>)
    : (r: seq<string>)
    requires forall i :: 0 <= i < |keys| ==> keys[i] in tasks
    ensures forall k :: k in r <==> k in keys && AppSelected(tasks[k], w, reportType)
    ensures forall i :: 0 <= i < |r| ==> r[i] in tasks
    ensures |r| <= |keys|
  {
    if keys == [] then []
    else
      var init := keys[..|keys| - 1];
      var k := keys[|keys| - 1];
      assert keys == init + [k];
      AppSelect(init, tasks, w, reportType) + (if AppSelected(tasks[k], w, reportType) then [k] else [])
  }

  /**
   * Without a report type nothing but the window filters, whereas the custom report
   * service reads a missing type as 'operational' and would drop, for one, an
   * awaiting-parts task.
   */
  lemma MissingTypeKeepsAll(t: Task)
    requires t.status == AwaitingParts
    ensures TypeKeeps(None, t)
    ensures !TypeKeeps(Some("operational"), t)
  {
  }

  // ----- Attribute paths -----

  /**
   * What `getattr` yields along a path: nothing, text, a day, a whole number, an
   * amount of money, a related row, or a bound method that was never called.
   */
  datatype Value =
    | Null
    | Str(s: string)
    | Day(day: int)
    | Int(n: int)
    | Money(cents: int)
    | TaskRef(key: string)
    | CustomerRef(id: nat)
    | UserRef(id: nat)
    | BoundMethod(owner: nat, name: string)

  /** `getattr(task, name, None)` for the task attributes a report names. */
  function TaskAttr(key: string, t: Task, name: string): (v: Value)
    ensures name == "assigned_to" ==> (v.Null? <==> t.assignedTo.None?)
  {
    if name == "id" then Str(key)
    else if name == "customer" then CustomerRef(t.customer)
    else if name == "assigned_to" then (if t.assignedTo.Some? then UserRef(t.assignedTo.value) else Null)
    else if name == "laptop_model" then Str(t.laptopModel)
    else if name == "status" then Str(t.status.Label())
    else if name == "urgency" then Str(t.urgency)
    else if name == "current_location" then Str(t.currentLocation)
    else if name == "date_in" then (if t.dateIn.Some? then Day(t.dateIn.value) else Null)
    else if name == "date_out" then (if t.dateOut.Some? then Day(t.dateOut.value) else Null)
    else if name == "payment_status" then Str(t.paymentStatus.Label())
    else Null
  }

  /** `getattr(user, name, None)`: a method name yields the method itself. */
  function UserAttr(u: User, name: string): (v: Value)
    ensures name == "get_full_name" ==> v == BoundMethod(u.id, name)
  {
    if name == "get_full_name" || name == "get_short_name" then BoundMethod(u.id, name)
    else if name == "first_name" then Str(u.firstName)
    else if name == "last_name" then Str(u.lastName)
    else if name == "username" then Str(u.username)
    else Null
  }

  /** One `getattr(obj, part, None)` step; a missing row or attribute is `None`. */
  function GetAttr(tb: ReportServices.Tables, v: Value, name: string): (r: Value)
    ensures v.Null? ==> r.Null?
  {
    match v
    case TaskRef(key) => if key in tb.tasks then TaskAttr(key, tb.tasks[key], name) else Null
    case CustomerRef(id) => if name == "name" && id in tb.customers then Str(tb.customers[id]) else Null
    case UserRef(id) => if id in tb.users then UserAttr(tb.users[id], name) else Null
    case _ => Null
  }

  /** Follow a path one attribute at a time, stopping with `None` at the first `None`. */
  function Follow(tb: ReportServices.Tables, v: Value, path: seq<string>): Value
    decreases |path|
  {
    if path == [] then v
    else
      var next := GetAttr(tb, v, path[0]);
      if next.Null? then Null else Follow(tb, next, path[1..])
  }

  /** Every attribute applied in turn, with no early stop. */
  function Chain(tb: ReportServices.Tables, v: Value, path: seq<string>): Value
    decreases |path|
  {
    if path == [] then v else Chain(tb, GetAttr(tb, v, path[0]), path[1..])
  }

  /**
   * Stopping at the first `None` is only a shortcut: `getattr(None, part, None)` is
   * `None` again, so following the whole path gives the same value.
   */
  lemma {:induction false} FollowIsChain(tb: ReportServices.Tables, v: Value, path: seq<string>)
    ensures Follow(tb, v, path) == Chain(tb, v, path)
    decreases |path|
  {
    if path != [] {
      var next := GetAttr(tb, v, path[0]);
      if next.Null? {
        ChainOfNull(tb, path[1..]);
      } else {
        FollowIsChain(tb, next, path[1..]);
      }
    }
  }

  lemma {:induction false} ChainOfNull(tb: ReportServices.Tables, path: seq<string>)
    ensures Chain(tb, Null, path) == Null
    decreases |path|
  {
    if path != [] {
      ChainOfNull(tb, path[1..]);
    }
  }

  /** The traversal loop of `generate_report`, starting from the task. */
  method FollowPath(tb: ReportServices.Tables, key: string, path: seq<string>) returns (obj: Value)
    ensures obj == Follow(tb, TaskRef(key), path)
  {
    obj := TaskRef(key);
    var i := 0;
    while i < |path|
      invariant 0 <= i <= |path|
      invariant Follow(tb, TaskRef(key), path) == Follow(tb, obj, path[i..])
    {
      obj := GetAttr(tb, obj, path[i]);
      if obj.Null? {
        break;
      }
      assert path[i..][1..] == path[i + 1..];
      i := i + 1;
    }
  }

  // ----- Computed fields -----

  /** `_calculate_turnaround_time`: days from intake to hand-over, only when both are set. */
  function Turnaround(t: Task): (d: Option<int>)
    ensures d.Some? <==> t.dateIn.Some? && t.dateOut.Some?
    ensures d.Some? ==> t.dateIn.value + d.value == t.dateOut.value
  {
    if t.dateIn.Some? && t.dateOut.Some? then Some(t.dateOut.value - t.dateIn.value) else None
  }

  /**
   * For a task that has left the shop without a workshop stay, this generator and the
   * custom report service agree on the turnaround; for a task still in the shop this
   * one reports nothing where the other counts up to today.
   */
  lemma TurnaroundAgreement(t: Task, today: int)
    requires t.dateIn.Some? && t.workshopSentAt.None?
    ensures t.dateOut.Some? ==> Turnaround(t) == ReportServices.ServiceTurnaround(t, today)
    ensures t.dateOut.None? ==> Turnaround(t).None? && ReportServices.ServiceTurnaround(t, today).Some?
  {
  }

  /** Amounts of the Additive items whose category mentions `word`, ignoring case. */
  function AdditiveMentioning(items: seq<CostItem>, word: string): (r: seq<int>)
    ensures |r| <= |items|
  {
    if items == [] then []
    else
      var c := items[|items| - 1];
      AdditiveMentioning(items[..|items| - 1], word)
        + (if c.costType == Additive && ReportServices.IContains(c.category, word) then [c.amount] else [])
  }

  /** The amounts are those of the Additive items that mention the word, in the items' order. */
  lemma {:induction false} AdditiveMentioningIsFilter(items: seq<CostItem>, word: string)
    ensures AdditiveMentioning(items, word)
      == MapSeq(Filter(items, (c: CostItem) => c.costType == Additive && ReportServices.IContains(c.category, word)),
                (c: CostItem) => c.amount)
    decreases |items|
  {
    if items != [] {
      var init, last := items[..|items| - 1], items[|items| - 1];
      AdditiveMentioningIsFilter(init, word);
      var kept := Filter(init, (c: CostItem) => c.costType == Additive && ReportServices.IContains(c.category, word));
      if last.costType == Additive && ReportServices.IContains(last.category, word) {
        assert (kept + [last])[..|kept|] == kept;
      }
    }
  }

  /** `_calculate_parts_cost` / `_calculate_labor_cost` of task `key`. */
  function CategoryCost(tb: ReportServices.Tables, key: string, word: string): int {
    Sum(AdditiveMentioning(ItemsOf(tb.items, key), word))
  }

  /**
   * With non-negative amounts the parts (or labour) cost never exceeds the sum of the
   * Additive items, which is the part of the total cost above the estimate.
   */
  lemma {:induction false} CategoryWithinAdditive(items: seq<CostItem>, word: string)
    requires forall i :: 0 <= i < |items| ==> items[i].amount >= 0
    ensures 0 <= Sum(AdditiveMentioning(items, word)) <= SumOfType(items, Additive)
    decreases |items|
  {
    if items != [] {
      var init := items[..|items| - 1];
      var c := items[|items| - 1];
      CategoryWithinAdditive(init, word);
      var tail := if c.costType == Additive && ReportServices.IContains(c.category, word) then [c.amount] else [];
      SumAppend(AdditiveMentioning(init, word), tail);
      if tail != [] { SumSingle(c.amount); }
    }
  }

  /**
   * One Additive item whose category mentions both words counts in the parts cost and
   * again in the labour cost.
   */
  lemma PartsAndLaborBothCount(c: CostItem)
    requires c.costType == Additive && c.category == "parts and labor"
    ensures Sum(AdditiveMentioning([c], "part")) == c.amount
    ensures Sum(AdditiveMentioning([c], "labor")) == c.amount
  {
    var lowered := Text.LowerString(c.category);
    assert lowered == c.category;
    assert Text.StartsWith(lowered[0..], "part");
    ContainsAt(lowered, 0, "part");
    SingleMentioning(c, "part");
    assert Text.StartsWith(lowered[10..], "labor");
    ContainsAt(lowered, 10, "labor");
    SingleMentioning(c, "labor");
  }

  /** A single Additive item counts in full towards every word its category mentions. */
  lemma SingleMentioning(c: CostItem, word: string)
    requires c.costType == Additive && ReportServices.IContains(c.category, word)
    ensures Sum(AdditiveMentioning([c], word)) == c.amount
  {
    assert [c][..0] == [];
    SumSingle(c.amount);
  }

  /** A piece found at offset `i` is contained. */
  lemma {:induction false} ContainsAt(hay: string, i: nat, needle: string)
    requires i <= |hay| && Text.StartsWith(hay[i..], needle)
    ensures Text.Contains(hay, needle)
    decreases i
  {
    if i > 0 {
      assert hay[1..][i - 1..] == hay[i..];
      ContainsAt(hay[1..], i - 1, needle);
    }
  }

  // ----- Field mapping and rows -----

  /** A field is read along an attribute path or computed by a helper. */
  datatype Mapping = Attribute(path: seq<string>) | Computed(name: string)

  /** `_get_field_mapping`, with each dotted path split at its `__` separators. */
  function MappingOf(field: string): (m: Option<Mapping>)
    ensures field == "technician" ==> m == Some(Attribute(["assigned_to", "get_full_name"]))
    ensures m.Some? && m.value.Attribute? ==> |m.value.path| > 0
  {
    if field == "task_id" then Some(Attribute(["id"]))
    else if field == "customer_name" then Some(Attribute(["customer", "name"]))
    else if field == "laptop_model" then Some(Attribute(["laptop_model"]))
    else if field == "technician" then Some(Attribute(["assigned_to", "get_full_name"]))
    else if field == "status" then Some(Attribute(["status"]))
    else if field == "urgency" then Some(Attribute(["urgency"]))
    else if field == "location" then Some(Attribute(["current_location"]))
    else if field == "date_in" then Some(Attribute(["date_in"]))
    else if field == "date_completed" then Some(Attribute(["date_out"]))
    else if field == "turnaround_time" then Some(Computed("turnaround_time"))
    else if field == "total_cost" then Some(Computed("total_cost"))
    else if field == "parts_cost" then Some(Computed("parts_cost"))
    else if field == "labor_cost" then Some(Computed("labor_cost"))
    else if field == "payment_status" then Some(Attribute(["payment_status"]))
    else None
  }

  function ComputedValue(tb: ReportServices.Tables, key: string, t: Task, name: string): (v: Value)
    ensures name == "turnaround_time" ==> (v.Null? <==> Turnaround(t).None?)
  {
    if name == "turnaround_time" then (if Turnaround(t).Some? then Int(Turnaround(t).value) else Null)
    else if name == "total_cost" then Money(TotalCost(t.estimatedCost, ItemsOf(tb.items, key)))
    else if name == "parts_cost" then Money(CategoryCost(tb, key, "part"))
    else Money(CategoryCost(tb, key, "labor"))
  }

  /** The value the generator stores for a mapped field, as written. */
  function RawValue(tb: ReportServices.Tables, key: string, t: Task, m: Mapping): (v: Value)
    ensures m.Computed? ==> !v.BoundMethod?
    ensures m.Computed? ==> (v.Null? <==> m.name == "turnaround_time" && Turnaround(t).None?)
  {
    match m
    case Attribute(path) => Follow(tb, TaskRef(key), path)
    case Computed(name) => ComputedValue(tb, key, t, name)
  }

  /**
   * As written, the technician column of an assigned task holds the user's
   * `get_full_name` method itself, never the name.
   */
  lemma TechnicianYieldsMethod(tb: ReportServices.Tables, key: string, t: Task)
    requires key in tb.tasks && tb.tasks[key] == t
    requires t.assignedTo.Some? && t.assignedTo.value in tb.users && tb.users[t.assignedTo.value].id == t.assignedTo.value
    ensures RawValue(tb, key, t, MappingOf("technician").value) == BoundMethod(t.assignedTo.value, "get_full_name")
    ensures !RawValue(tb, key, t, MappingOf("technician").value).Str?
  {
    var path := ["assigned_to", "get_full_name"];
    assert path[1..] == ["get_full_name"];
    assert path[1..][1..] == [];
  }

  /** A method reached at the end of a path is called, as the mapping intends. */
  function Resolve(tb: ReportServices.Tables, v: Value): (r: Value)
    ensures !v.BoundMethod? ==> r == v
    ensures v.BoundMethod? && v.name == "get_full_name" && v.owner in tb.users ==>
      r == Str(tb.users[v.owner].FullName())
  {
    match v
    case BoundMethod(owner, name) =>
      if owner !in tb.users then Null
      else if name == "get_full_name" then Str(tb.users[owner].FullName())
      else Str(tb.users[owner].firstName)
    case _ => v
  }

  /** The value of one mapped field, with a trailing method called. */
  function FieldValue(tb: ReportServices.Tables, key: string, t: Task, m: Mapping): (v: Value)
    ensures !v.BoundMethod?
    ensures !RawValue(tb, key, t, m).BoundMethod? ==> v == RawValue(tb, key, t, m)
  {
    Resolve(tb, RawValue(tb, key, t, m))
  }

  /** With the method called, the technician column holds the technician's full name. */
  lemma TechnicianYieldsName(tb: ReportServices.Tables, key: string, t: Task)
    requires key in tb.tasks && tb.tasks[key] == t
    requires t.assignedTo.Some? && t.assignedTo.value in tb.users && tb.users[t.assignedTo.value].id == t.assignedTo.value
    ensures FieldValue(tb, key, t, MappingOf("technician").value) == Str(tb.users[t.assignedTo.value].FullName())
  {
    TechnicianYieldsMethod(tb, key, t);
  }

  /** An unassigned task has no technician: the path stops at `assigned_to`. */
  lemma UnassignedTechnicianIsNull(tb: ReportServices.Tables, key: string, t: Task)
    requires key in tb.tasks && tb.tasks[key] == t && t.assignedTo.None?
    ensures FieldValue(tb, key, t, MappingOf("technician").value) == Null
  {
  }

  type AppRow = map<string, Value>

  /**
   * The row of one task as written: every selected field that has a mapping,
   * each with the value the generator stores, a trailing method uncalled.
   */
  function RowOf(tb: ReportServices.Tables, key: string, t: Task, fields: seq<string>): (row: AppRow)
    ensures row.Keys == set f | f in fields && MappingOf(f).Some?
    ensures forall f :: f in row ==> row[f] == RawValue(tb, key, t, MappingOf(f).value)
  {
    if fields == [] then map[]
    else
      var f := fields[|fields| - 1];
      var row := RowOf(tb, key, t, fields[..|fields| - 1]);
      if MappingOf(f).Some? then row[f := RawValue(tb, key, t, MappingOf(f).value)] else row
  }

  /** A row that selects the technician of an assigned task holds the method, not the name. */
  lemma RowTechnicianIsMethod(tb: ReportServices.Tables, key: string, t: Task, fields: seq<string>)
    requires key in tb.tasks && tb.tasks[key] == t && "technician" in fields
    requires t.assignedTo.Some? && t.assignedTo.value in tb.users && tb.users[t.assignedTo.value].id == t.assignedTo.value
    ensures "technician" in RowOf(tb, key, t, fields)
    ensures RowOf(tb, key, t, fields)["technician"] == BoundMethod(t.assignedTo.value, "get_full_name")
  {
    TechnicianYieldsMethod(tb, key, t);
  }

  /** The inner loop of `generate_report`: one task's row. */
  method BuildRow(tb: ReportServices.Tables, key: string, t: Task, fields: seq<string>) returns (row: AppRow)
    ensures row == RowOf(tb, key, t, fields)
  {
    row := map[];
    var k := 0;
    while k < |fields|
      invariant 0 <= k <= |fields|
      invariant row == RowOf(tb, key, t, fields[..k])
    {
      assert fields[..k + 1][..k] == fields[..k];
      var m := MappingOf(fields[k]);
      if m.Some? {
        var v: Value;
        match m.value {
          case Attribute(path) =>
            v := FollowPath(tb, key, path);
          case Computed(name) =>
            v := ComputedValue(tb, key, t, name);
        }
        row := row[fields[k] := v];
      }
      k := k + 1;
    }
    assert fields[..|fields|] == fields;
  }

  // ----- Summary -----

  /** The tasks of `keys`, in order. */
  function TasksOf(tasks: map<string, Task>, keys: seq<string>): (r: seq<Task>)
    requires forall i :: 0 <= i < |keys| ==> keys[i] in tasks
    ensures |r| == |keys|
    ensures forall i :: 0 <= i < |keys| ==> r[i] == tasks[keys[i]]
  {
    if keys == [] then [] else TasksOf(tasks, keys[..|keys| - 1]) + [tasks[keys[|keys| - 1]]]
  }

  function StatusesOf(tasks: seq<Task>): set<Status> {
    set i | 0 <= i < |tasks| :: tasks[i].status
  }

  /** A status is counted exactly when some task has it. */
  lemma {:induction false} StatusCountPositive(tasks: seq<Task>, s: Status)
    ensures PredefinedReports.StatusCount(tasks, s) > 0 <==> s in StatusesOf(tasks)
    decreases |tasks|
  {
    if tasks != [] {
      var init := tasks[..|tasks| - 1];
      StatusCountPositive(init, s);
      assert StatusesOf(tasks) == StatusesOf(init) + {tasks[|tasks| - 1].status} by {
        forall x | x in StatusesOf(tasks) ensures x in StatusesOf(init) + {tasks[|tasks| - 1].status} {
          var i :| 0 <= i < |tasks| && tasks[i].status == x;
          if i < |init| { assert init[i] == tasks[i]; }
        }
        forall x | x in StatusesOf(init) ensures x in StatusesOf(tasks) {
          var i :| 0 <= i < |init| && init[i].status == x;
          assert tasks[i] == init[i];
        }
      }
    }
  }

  /** `status_distribution`: each status some task has, with its count. */
  function StatusDistribution(tasks: seq<Task>): (m: map<Status, nat>)
    ensures forall s :: s in m <==> PredefinedReports.StatusCount(tasks, s) > 0
    ensures forall s :: s in m ==> m[s] == PredefinedReports.StatusCount(tasks, s)
  {
    var m := map s | s in StatusesOf(tasks) :: PredefinedReports.StatusCount(tasks, s);
    assert forall s :: s in m <==> PredefinedReports.StatusCount(tasks, s) > 0 by {
      forall s ensures s in m <==> PredefinedReports.StatusCount(tasks, s) > 0 {
        StatusCountPositive(tasks, s);
      }
    }
    m
  }

  /** The estimates that are set, in order (`Sum`/`Avg` skip nulls). */
  function Estimates(tasks: seq<Task>): (r: seq<int>)
    ensures |r| <= |tasks|
    ensures r == [] <==> forall i :: 0 <= i < |tasks| ==> tasks[i].estimatedCost.None?
  {
    if tasks == [] then []
    else
      var t := tasks[|tasks| - 1];
      var r := Estimates(tasks[..|tasks| - 1]) + (if t.estimatedCost.Some? then [t.estimatedCost.value] else []);
      assert forall i :: 0 <= i < |tasks| - 1 ==> tasks[..|tasks| - 1][i] == tasks[i];
      r
  }

  /** The aggregate over the estimates: null sum and average when no estimate is set. */
  datatype Financial = Financial(totalRevenue: Option<int>, avgCost: Option<real>, totalTasks: nat)

  function FinancialOf(tasks: seq<Task>): (f: Financial)
    ensures f.totalTasks == |tasks|
    ensures f.totalRevenue.None? <==> forall i :: 0 <= i < |tasks| ==> tasks[i].estimatedCost.None?
    ensures f.avgCost.None? <==> f.totalRevenue.None?
    ensures f.totalRevenue.Some? ==> f.totalRevenue.value == Sum(Estimates(tasks))
    ensures f.avgCost.Some? ==> f.avgCost.value * |Estimates(tasks)| as real == f.totalRevenue.value as real
  {
    var e := Estimates(tasks);
    if e == [] then Financial(None, None, |tasks|)
    else Financial(Some(Sum(e)), Some(PredefinedReports.Average(Sum(e), |e|)), |tasks|)
  }

  datatype AppSummary = AppSummary(
    statusDistribution: Option<map<Status, nat>>,
    financial: Option<Financial>,
    turnaround: Option<PredefinedReports.TurnaroundReport>)

  /**
   * `_generate_summary`: the status distribution when 'status' is selected, the
   * estimate aggregate when 'total_cost' or 'payment_status' is, and the turnaround
   * average, minimum and maximum when 'turnaround_time' is and some Completed task has
   * both dates.
   */
  function SummaryOf(tasks: seq<Task>, fields: seq<string>): (s: AppSummary)
    ensures s.statusDistribution.Some? <==> "status" in fields
    ensures s.financial.Some? <==> "total_cost" in fields || "payment_status" in fields
    ensures s.turnaround.Some? <==> "turnaround_time" in fields && PredefinedReports.TurnaroundDays(tasks) != []
    ensures s.turnaround.Some? ==> s.turnaround.value.TurnaroundSummary?
  {
    var days := PredefinedReports.TurnaroundDays(tasks);
    AppSummary(
      if "status" in fields then Some(StatusDistribution(tasks)) else None,
      if "total_cost" in fields || "payment_status" in fields then Some(FinancialOf(tasks)) else None,
      if "turnaround_time" in fields && days != [] then Some(PredefinedReports.Summarise(days)) else None)
  }

  /** `_generate_summary`, with its loop over the completed tasks. */
  method GenerateSummary(tasks: seq<Task>, fields: seq<string>) returns (s: AppSummary)
    ensures s == SummaryOf(tasks, fields)
  {
    var distribution := if "status" in fields then Some(StatusDistribution(tasks)) else None;
    var financial := if "total_cost" in fields || "payment_status" in fields then Some(FinancialOf(tasks)) else None;
    var turnaround: Option<PredefinedReports.TurnaroundReport> := None;
    if "turnaround_time" in fields {
      var days: seq<int> := [];
      var i := 0;
      while i < |tasks|
        invariant 0 <= i <= |tasks|
        invariant days == PredefinedReports.TurnaroundDays(tasks[..i])
      {
        PredefinedReports.TurnaroundDaysStep(tasks, i);
        var t := tasks[i];
        if t.status == Completed && t.dateIn.Some? && t.dateOut.Some? {
          days := days + [t.dateOut.value - t.dateIn.value];
        }
        i := i + 1;
      }
      assert tasks[..|tasks|] == tasks;
      if days != [] {
        turnaround := Some(PredefinedReports.Summarise(days));
      }
    }
    s := AppSummary(distribution, financial, turnaround);
  }

  /** The turnaround summary lies between its shortest and longest turnaround. */
  lemma SummaryTurnaroundBounds(tasks: seq<Task>, fields: seq<string>)
    ensures SummaryOf(tasks, fields).turnaround.Some? ==>
      var r := SummaryOf(tasks, fields).turnaround.value;
      r.minimum as real <= r.average <= r.maximum as real
      && r.count == |PredefinedReports.TurnaroundDays(tasks)|
  {
  }

  // ----- The report -----

  datatype Metadata = Metadata(totalRecords: nat, dateRange: Option<string>, reportType: Option<string>)

  datatype AppReport = AppReport(metadata: Metadata, data: seq<AppRow>, summary: AppSummary)

  /**
   * `generate_report` over the task keys in query order: filter by window and type,
   * one row per remaining task, then the metadata and the summary. A malformed custom
   * date raises, which is `None` here.
   */
  method GenerateReport(tb: ReportServices.Tables, keys: seq<string>, config: ReportServices.Config, today: int)
    returns (r: Option<AppReport>)
    requires forall i :: 0 <= i < |keys| ==> keys[i] in tb.tasks
    ensures r.None? <==> AppWindow(config, today).None?
    ensures r.Some? ==>
      var selected := AppSelect(keys, tb.tasks, AppWindow(config, today).value, config.selectedType);
      && r.value.metadata == Metadata(|selected|, config.dateRange, config.selectedType)
      && |r.value.data| == |selected|
      && (forall i :: 0 <= i < |selected| ==>
            r.value.data[i] == RowOf(tb, selected[i], tb.tasks[selected[i]], config.selectedFields))
      && r.value.summary == SummaryOf(TasksOf(tb.tasks, selected), config.selectedFields)
  {
    var w := AppWindow(config, today);
    if w.None? {
      return None;
    }
    var selected := AppSelect(keys, tb.tasks, w.value, config.selectedType);
    var data := BuildRows(tb, selected, config.selectedFields);
    var summary := GenerateSummary(TasksOf(tb.tasks, selected), config.selectedFields);
    r := Some(AppReport(Metadata(|selected|, config.dateRange, config.selectedType), data, summary));
  }

  /** One row per selected task, in order. */
  method BuildRows(tb: ReportServices.Tables, selected: seq<string>, fields: seq<string>)
    returns (data: seq<AppRow>)
    requires forall i :: 0 <= i < |selected| ==> selected[i] in tb.tasks
    ensures |data| == |selected|
    ensures forall i :: 0 <= i < |selected| ==> data[i] == RowOf(tb, selected[i], tb.tasks[selected[i]], fields)
  {
    data := [];
    var i := 0;
    while i < |selected|
      invariant 0 <= i <= |selected|
      invariant |data| == i
      invariant forall j :: 0 <= j < i ==> data[j] == RowOf(tb, selected[j], tb.tasks[selected[j]], fields)
    {
      var row := BuildRow(tb, selected[i], tb.tasks[selected[i]], fields);
      data := data + [row];
      i := i + 1;
    }
  }

  /** Every row of a financial report comes from a task with an estimate. */
  lemma FinancialRowsHaveEstimates(keys: seq<string>, tasks: map<string, Task>, w: Window, k: string)
    requires forall i :: 0 <= i < |keys| ==> keys[i] in tasks
    requires k in AppSelect(keys, tasks, w, Some("financial"))
    ensures tasks[k].estimatedCost.Some? && InWindow(w, tasks[k].createdAt)
  {
  }
}
