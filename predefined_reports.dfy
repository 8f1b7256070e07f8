/**
 * The predefined reports: outstanding payments, the status distribution, technician
 * workload and performance, and turnaround times. Each generator's loop is a method
 * proved against the function that states its result.
 */
module PredefinedReports {
  import opened Basics
  import opened TaskModels
  import opened FinancialModels
  import opened DateRanges

  // ----- Outstanding payments -----

  datatype OutstandingRow = OutstandingRow(
    taskId: string, customer: nat, totalCost: int, paidAmount: int,
    balance: int, daysOverdue: int, status: Status)

  /** Days since intake, or 0 for a task with no intake date. */
  function DaysOverdue(t: Task, today: int): (d: int)
    ensures t.dateIn.None? ==> d == 0
    ensures t.dateIn.Some? ==> t.dateIn.value + d == today
  {
    if t.dateIn.Some? then today - t.dateIn.value else 0
  }

  /**
   * The row of one task: only an Unpaid or Partially Paid task whose total cost
   * (estimate + Additive − Subtractive) exceeds the sum of its payments has one.
   */
  function OutstandingRowOf(t: Task, payments: seq<Payment>, items: seq<CostItem>, today: int)
    : (r: Option<OutstandingRow>)
    ensures r.Some? <==>
      t.paymentStatus in {Unpaid, PartiallyPaid}
      && TotalCost(t.estimatedCost, ItemsOf(items, t.title)) > Sum(PaymentAmounts(payments, t.title))
    ensures r.Some? ==>
      && r.value.taskId == t.title
      && r.value.totalCost == TotalCost(t.estimatedCost, ItemsOf(items, t.title))
      && r.value.paidAmount == Sum(PaymentAmounts(payments, t.title))
      && r.value.balance == r.value.totalCost - r.value.paidAmount > 0
      && r.value.daysOverdue == DaysOverdue(t, today)
  {
    if t.paymentStatus !in {Unpaid, PartiallyPaid} then None
    else
      var total := TotalCost(t.estimatedCost, ItemsOf(items, t.title));
      var paid := Sum(PaymentAmounts(payments, t.title));
      if total - paid > 0 then
        Some(OutstandingRow(t.title, t.customer, total, paid, total - paid, DaysOverdue(t, today), t.status))
      else None
  }

  /** The rows of the tasks, in table order. */
  function OutstandingRows(tasks: seq<Task>, payments: seq<Payment>, items: seq<CostItem>, today: int)
    : (rows: seq<OutstandingRow>)
    ensures forall i :: 0 <= i < |rows| ==> rows[i].balance > 0
  {
    if tasks == [] then []
    else
      var r := OutstandingRowOf(tasks[|tasks| - 1], payments, items, today);
      OutstandingRows(tasks[..|tasks| - 1], payments, items, today) + (if r.Some? then [r.value] else [])
  }

  function Balance(r: OutstandingRow): int { r.balance }

  function Balances(rows: seq<OutstandingRow>): (b: seq<int>)
    ensures |b| == |rows| && forall i :: 0 <= i < |rows| ==> b[i] == rows[i].balance
  {
    if rows == [] then [] else Balances(rows[..|rows| - 1]) + [rows[|rows| - 1].balance]
  }

  /** A task has a row exactly when its own row function produces one. */
  lemma {:induction false} OutstandingRowsMembership(
    tasks: seq<Task>, payments: seq<Payment>, items: seq<CostItem>, today: int, t: Task)
    requires t in tasks && OutstandingRowOf(t, payments, items, today).Some?
    ensures OutstandingRowOf(t, payments, items, today).value in OutstandingRows(tasks, payments, items, today)
    decreases |tasks|
  {
    var init := tasks[..|tasks| - 1];
    if t != tasks[|tasks| - 1] {
      assert tasks == init + [tasks[|tasks| - 1]];
      OutstandingRowsMembership(init, payments, items, today, t);
    }
  }

  datatype OutstandingReport = OutstandingReport(
    rows: seq<OutstandingRow>, totalOutstanding: int, taskCount: nat, averageBalance: real)

  /**
   * `generate_outstanding_payments_report`: the rows sorted by balance, highest first,
   * with their total, their number and the average balance (0 with no rows).
   */
  method GenerateOutstandingPaymentsReport(
    tasks: seq<Task>, payments: seq<Payment>, items: seq<CostItem>, today: int)
    returns (report: OutstandingReport)
    ensures multiset(report.rows) == multiset(OutstandingRows(tasks, payments, items, today))
    ensures SortedDesc(report.rows, Balance)
    ensures report.rows == SortDesc(OutstandingRows(tasks, payments, items, today), Balance)
    ensures report.totalOutstanding == Sum(Balances(report.rows))
    ensures report.taskCount == |report.rows|
    ensures report.averageBalance == Average(report.totalOutstanding, report.taskCount)
    ensures report.rows == [] <==> report.totalOutstanding == 0
    ensures report.totalOutstanding >= 0
  {
    var data: seq<OutstandingRow> := [];
    var i := 0;
    while i < |tasks|
      invariant 0 <= i <= |tasks|
      invariant data == OutstandingRows(tasks[..i], payments, items, today)
    {
      assert tasks[..i + 1][..i] == tasks[..i];
      var r := OutstandingRowOf(tasks[i], payments, items, today);
      if r.Some? {
        data := data + [r.value];
      }
      i := i + 1;
    }
    assert tasks[..|tasks|] == tasks;
    var sorted := SortDesc(data, Balance);
    forall k | 0 <= k < |sorted| ensures sorted[k].balance > 0 {
      assert sorted[k] in multiset(data);
    }
    data := sorted;
    var total := Sum(Balances(data));
    SumPositive(Balances(data));
    report := OutstandingReport(data, total, |data|, Average(total, |data|));
  }

  /** `total / count`, or 0 when there is nothing to average. */
  function Average(total: int, count: nat): (a: real)
    ensures count == 0 ==> a == 0.0
    ensures count > 0 ==> a * count as real == total as real
  {
    if count > 0 then total as real / count as real else 0.0
  }

  /** A sum of positive numbers is positive unless empty. */
  lemma {:induction false} SumPositive(xs: seq<int>)
    requires forall i :: 0 <= i < |xs| ==> xs[i] > 0
    ensures xs == [] ==> Sum(xs) == 0
    ensures xs != [] ==> Sum(xs) > 0
    decreases |xs|
  {
    if xs != [] { SumPositive(xs[..|xs| - 1]); }
  }

  // ----- Task status distribution -----

  const ALL_STATUSES: seq<Status> :=
    [Pending, InProgress, AwaitingParts, ReadyForQC, Completed, ReadyForPickup, PickedUp, Cancelled, Terminated]

  lemma AllStatusesListed(s: Status)
    ensures s in ALL_STATUSES
    ensures forall i, j :: 0 <= i < j < |ALL_STATUSES| ==> ALL_STATUSES[i] != ALL_STATUSES[j]
  {
  }

  function StatusCount(tasks: seq<Task>, s: Status): (n: nat)
    ensures n <= |tasks|
  {
    if tasks == [] then 0
    else StatusCount(tasks[..|tasks| - 1], s) + (if tasks[|tasks| - 1].status == s then 1 else 0)
  }

  datatype StatusRow = StatusRow(status: Status, count: nat, percentage: real)

  /** Share of `count` in `total`, in percent; 0 when there are no tasks. */
  function Percentage(count: nat, total: nat): real {
    if total > 0 then (count * 100) as real / total as real else 0.0
  }

  /** One row per listed status that some task has, in list order. */
  function StatusRows(tasks: seq<Task>, statuses: seq<Status>): (rows: seq<StatusRow>)
    ensures forall i :: 0 <= i < |rows| ==> rows[i].count > 0 && rows[i].status in statuses
    ensures forall i :: 0 <= i < |rows| ==> rows[i].percentage == Percentage(rows[i].count, |tasks|)
  {
    if statuses == [] then []
    else
      var s := statuses[|statuses| - 1];
      var n := StatusCount(tasks, s);
      StatusRows(tasks, statuses[..|statuses| - 1])
        + (if n > 0 then [StatusRow(s, n, Percentage(n, |tasks|))] else [])
  }

  function RowCounts(rows: seq<StatusRow>): int {
    if rows == [] then 0 else RowCounts(rows[..|rows| - 1]) + rows[|rows| - 1].count
  }

  function RowPercentages(rows: seq<StatusRow>): real {
    if rows == [] then 0.0 else RowPercentages(rows[..|rows| - 1]) + rows[|rows| - 1].percentage
  }

  function CountsOver(tasks: seq<Task>, statuses: seq<Status>): int {
    if statuses == [] then 0
    else CountsOver(tasks, statuses[..|statuses| - 1]) + StatusCount(tasks, statuses[|statuses| - 1])
  }

  /**
   * The urgency distribution: one entry per urgency value that some task has, with the
   * number of tasks of that urgency. It is a map because the grouped query has no order.
   */
  function UrgencyDistribution(tasks: seq<Task>): (m: map<string, nat>)
    ensures forall u :: u in m <==> exists t :: t in tasks && t.urgency == u
    ensures forall u :: u in m ==> m[u] == UrgencyCount(tasks, u)
  {
    var urgencies := set t | t in tasks :: t.urgency;
    map u | u in urgencies :: UrgencyCount(tasks, u)
  }

  /** The number of tasks of one urgency. */
  function UrgencyCount(tasks: seq<Task>, u: string): nat {
    Count(tasks, (t: Task) => t.urgency == u)
  }

  /** Every listed urgency has at least one task, so no entry reads 0. */
  lemma UrgencyCountsPositive(tasks: seq<Task>, u: string)
    requires u in UrgencyDistribution(tasks)
    ensures UrgencyDistribution(tasks)[u] > 0
  {
    var t :| t in tasks && t.urgency == u;
    CountPositive(tasks, (t: Task) => t.urgency == u, t);
  }

  datatype StatusReport = StatusReport(rows: seq<StatusRow>, urgency: map<string, nat>, totalTasks: nat)

  /**
   * `generate_task_status_report`: the grouped counts, each with its share of all
   * tasks, and the urgency distribution. The group-by is taken in the order of the
   * status list.
   */
  method GenerateTaskStatusReport(tasks: seq<Task>) returns (report: StatusReport)
    ensures report.totalTasks == |tasks|
    ensures report.rows == StatusRows(tasks, ALL_STATUSES)
    ensures report.urgency == UrgencyDistribution(tasks)
  {
    var total := |tasks|;
    var data: seq<StatusRow> := [];
    var i := 0;
    while i < |ALL_STATUSES|
      invariant 0 <= i <= |ALL_STATUSES|
      invariant data == StatusRows(tasks, ALL_STATUSES[..i])
    {
      assert ALL_STATUSES[..i + 1][..i] == ALL_STATUSES[..i];
      var s := ALL_STATUSES[i];
      var n := StatusCount(tasks, s);
      if n > 0 {
        var percentage := if total > 0 then (n * 100) as real / total as real else 0.0;
        data := data + [StatusRow(s, n, percentage)];
      }
      i := i + 1;
    }
    assert ALL_STATUSES[..|ALL_STATUSES|] == ALL_STATUSES;
    report := StatusReport(data, UrgencyDistribution(tasks), total);
  }

  /** Adding a task raises exactly its own status's count, once, over a list without repeats. */
  lemma {:induction false} CountsOverSnoc(tasks: seq<Task>, t: Task, statuses: seq<Status>)
    requires forall i, j :: 0 <= i < j < |statuses| ==> statuses[i] != statuses[j]
    ensures CountsOver(tasks + [t], statuses) == CountsOver(tasks, statuses) + (if t.status in statuses then 1 else 0)
    decreases |statuses|
  {
    if statuses != [] {
      var init := statuses[..|statuses| - 1];
      CountsOverSnoc(tasks, t, init);
      assert (tasks + [t])[..|tasks|] == tasks;
      assert t.status in statuses <==> t.status in init || t.status == statuses[|statuses| - 1];
    }
  }

  /** Every task has exactly one status, so the counts over all statuses add up to the total. */
  lemma {:induction false} CountsCoverAllTasks(tasks: seq<Task>)
    ensures CountsOver(tasks, ALL_STATUSES) == |tasks|
    decreases |tasks|
  {
    if tasks != [] {
      var init := tasks[..|tasks| - 1];
      CountsCoverAllTasks(init);
      assert tasks == init + [tasks[|tasks| - 1]];
      CountsOverSnoc(init, tasks[|tasks| - 1], ALL_STATUSES);
      AllStatusesListed(tasks[|tasks| - 1].status);
    } else {
      CountsOverNoTasks(ALL_STATUSES);
    }
  }

  lemma {:induction false} CountsOverNoTasks(statuses: seq<Status>)
    ensures CountsOver([], statuses) == 0
    decreases |statuses|
  {
    if statuses != [] { CountsOverNoTasks(statuses[..|statuses| - 1]); }
  }

  /** The rows carry every non-zero count, so their counts add up to the same sum. */
  lemma {:induction false} RowCountsMatch(tasks: seq<Task>, statuses: seq<Status>)
    ensures RowCounts(StatusRows(tasks, statuses)) == CountsOver(tasks, statuses)
    decreases |statuses|
  {
    if statuses != [] {
      RowCountsMatch(tasks, statuses[..|statuses| - 1]);
      RowCountsStep(tasks, statuses);
    }
  }

  /** Adding a status to the list adds its count to the rows' total. */
  lemma RowCountsStep(tasks: seq<Task>, statuses: seq<Status>)
    requires statuses != []
    ensures RowCounts(StatusRows(tasks, statuses))
      == RowCounts(StatusRows(tasks, statuses[..|statuses| - 1])) + StatusCount(tasks, statuses[|statuses| - 1])
  {
    var s := statuses[|statuses| - 1];
    var rows := StatusRows(tasks, statuses[..|statuses| - 1]);
    var n := StatusCount(tasks, s);
    if n > 0 {
      var row := StatusRow(s, n, Percentage(n, |tasks|));
      assert StatusRows(tasks, statuses) == rows + [row];
      RowCountsSnoc(rows, row);
    } else {
      assert StatusRows(tasks, statuses) == rows + [];
      assert rows + [] == rows;
    }
  }

  lemma RowCountsSnoc(rows: seq<StatusRow>, row: StatusRow)
    ensures RowCounts(rows + [row]) == RowCounts(rows) + row.count
  {
    assert (rows + [row])[..|rows|] == rows;
  }

  /** Percentages of one total add up to the percentage of the summed counts. */
  lemma {:induction false} RowPercentagesOfCounts(rows: seq<StatusRow>, total: nat)
    requires total > 0
    requires forall i :: 0 <= i < |rows| ==> rows[i].percentage == Percentage(rows[i].count, total)
    ensures RowPercentages(rows) == (RowCounts(rows) * 100) as real / total as real
    decreases |rows|
  {
    if rows != [] {
      var init := rows[..|rows| - 1];
      RowPercentagesOfCounts(init, total);
      PercentageAdd(RowCounts(init), rows[|rows| - 1].count, total);
    }
  }

  lemma PercentageAdd(c: int, n: nat, total: nat)
    requires total > 0
    ensures (c * 100) as real / total as real + Percentage(n, total) == ((c + n) * 100) as real / total as real
  {
  }

  /** The status counts add up to the number of tasks, and the percentages to 100. */
  lemma StatusReportAddsUp(tasks: seq<Task>)
    ensures RowCounts(StatusRows(tasks, ALL_STATUSES)) == |tasks|
    ensures tasks != [] ==> RowPercentages(StatusRows(tasks, ALL_STATUSES)) == 100.0
    ensures tasks == [] ==> StatusRows(tasks, ALL_STATUSES) == []
  {
    RowCountsMatch(tasks, ALL_STATUSES);
    CountsCoverAllTasks(tasks);
    if tasks != [] {
      RowPercentagesOfCounts(StatusRows(tasks, ALL_STATUSES), |tasks|);
      WholeIsHundred(|tasks|);
    }
    if tasks == [] {
      var rows := StatusRows(tasks, ALL_STATUSES);
      if rows != [] {
        assert rows[0].count > 0;
        assert StatusCount(tasks, rows[0].status) == 0;
        RowCountsIsCount(tasks, ALL_STATUSES, 0);
      }
    }
  }

  lemma WholeIsHundred(total: nat)
    requires total > 0
    ensures (total * 100) as real / total as real == 100.0
  {
  }

  /** Each row's count is that status's count among the tasks. */
  lemma {:induction false} RowCountsIsCount(tasks: seq<Task>, statuses: seq<Status>, i: nat)
    requires i < |StatusRows(tasks, statuses)|
    ensures StatusRows(tasks, statuses)[i].count == StatusCount(tasks, StatusRows(tasks, statuses)[i].status)
    decreases |statuses|
  {
    var init := statuses[..|statuses| - 1];
    if i < |StatusRows(tasks, init)| {
      RowCountsIsCount(tasks, init, i);
    }
  }

  // ----- Technician workload -----

  /** A technician counted in the workload and performance reports. */
  predicate ActiveTechnician(u: User) { u.role == TECHNICIAN && u.isActive }

  predicate Open(t: Task) { t.status !in {Completed, PickedUp} }

  function AssignedCount(tasks: seq<Task>, id: nat, s: Option<Status>): (n: nat)
    ensures n <= |tasks|
  {
    if tasks == [] then 0
    else
      var t := tasks[|tasks| - 1];
      AssignedCount(tasks[..|tasks| - 1], id, s)
        + (if t.assignedTo == Some(id) && (if s.Some? then t.status == s.value else Open(t)) then 1 else 0)
  }

  datatype WorkloadRow = WorkloadRow(name: string, tasks: nat, inProgress: nat, awaitingParts: nat, pending: nat)

  function WorkloadRowOf(u: User, tasks: seq<Task>): (r: WorkloadRow)
    ensures r.tasks >= r.inProgress + r.awaitingParts + r.pending
  {
    OpenSplits(tasks, u.id);
    WorkloadRow(u.firstName + " " + u.lastName,
      AssignedCount(tasks, u.id, None), AssignedCount(tasks, u.id, Some(InProgress)),
      AssignedCount(tasks, u.id, Some(AwaitingParts)), AssignedCount(tasks, u.id, Some(Pending)))
  }

  /** In Progress, Awaiting Parts and Pending tasks are all open, and never the same task. */
  lemma {:induction false} OpenSplits(tasks: seq<Task>, id: nat)
    ensures AssignedCount(tasks, id, None)
      >= AssignedCount(tasks, id, Some(InProgress)) + AssignedCount(tasks, id, Some(AwaitingParts))
         + AssignedCount(tasks, id, Some(Pending))
    decreases |tasks|
  {
    if tasks != [] { OpenSplits(tasks[..|tasks| - 1], id); }
  }

  function WorkloadRows(users: seq<User>, tasks: seq<Task>): seq<WorkloadRow> {
    if users == [] then []
    else
      var u := users[|users| - 1];
      WorkloadRows(users[..|users| - 1], tasks) + (if ActiveTechnician(u) then [WorkloadRowOf(u, tasks)] else [])
  }

  function WorkloadTasks(r: WorkloadRow): int { r.tasks }

  function RowTasks(rows: seq<WorkloadRow>): int {
    if rows == [] then 0 else RowTasks(rows[..|rows| - 1]) + rows[|rows| - 1].tasks
  }

  lemma WorkloadRowsStep(users: seq<User>, tasks: seq<Task>, i: nat)
    requires i < |users|
    ensures WorkloadRows(users[..i + 1], tasks)
      == WorkloadRows(users[..i], tasks) + (if ActiveTechnician(users[i]) then [WorkloadRowOf(users[i], tasks)] else [])
  {
    assert users[..i + 1][..i] == users[..i];
  }

  lemma RowTasksStep(rows: seq<WorkloadRow>, j: nat)
    requires j < |rows|
    ensures RowTasks(rows[..j + 1]) == RowTasks(rows[..j]) + rows[j].tasks
  {
    assert rows[..j + 1][..j] == rows[..j];
  }

  datatype WorkloadReport = WorkloadReport(rows: seq<WorkloadRow>, totalActiveTechnicians: nat, totalAssignedTasks: int)

  /**
   * `generate_technician_workload_report`: one row per active technician, most open
   * tasks first, with the number of rows and the sum of their open tasks.
   */
  method GenerateTechnicianWorkloadReport(users: seq<User>, tasks: seq<Task>) returns (report: WorkloadReport)
    ensures report.rows == SortDesc(WorkloadRows(users, tasks), WorkloadTasks)
    ensures report.totalActiveTechnicians == |report.rows|
    ensures report.totalAssignedTasks == RowTasks(report.rows)
  {
    var rows: seq<WorkloadRow> := [];
    var i := 0;
    while i < |users|
      invariant 0 <= i <= |users|
      invariant rows == WorkloadRows(users[..i], tasks)
    {
      WorkloadRowsStep(users, tasks, i);
      if ActiveTechnician(users[i]) {
        rows := rows + [WorkloadRowOf(users[i], tasks)];
      }
      i := i + 1;
    }
    assert users[..|users|] == users;
    rows := SortDesc(rows, WorkloadTasks);
    var total := 0;
    var j := 0;
    while j < |rows|
      invariant 0 <= j <= |rows|
      invariant total == RowTasks(rows[..j])
    {
      RowTasksStep(rows, j);
      total := total + rows[j].tasks;
      j := j + 1;
    }
    assert rows[..|rows|] == rows;
    report := WorkloadReport(rows, |rows|, total);
  }

  /** Open tasks assigned to any of the given technicians. */
  function OpenAssignedTo(tasks: seq<Task>, ids: set<nat>): nat {
    if tasks == [] then 0
    else
      var t := tasks[|tasks| - 1];
      OpenAssignedTo(tasks[..|tasks| - 1], ids)
        + (if t.assignedTo.Some? && t.assignedTo.value in ids && Open(t) then 1 else 0)
  }

  function ActiveIds(users: seq<User>): set<nat> {
    if users == [] then {}
    else
      var u := users[|users| - 1];
      ActiveIds(users[..|users| - 1]) + (if ActiveTechnician(u) then {u.id} else {})
  }

  lemma {:induction false} OpenAssignedToAdd(tasks: seq<Task>, ids: set<nat>, id: nat)
    requires id !in ids
    ensures OpenAssignedTo(tasks, ids + {id}) == OpenAssignedTo(tasks, ids) + AssignedCount(tasks, id, None)
    decreases |tasks|
  {
    if tasks != [] { OpenAssignedToAdd(tasks[..|tasks| - 1], ids, id); }
  }

  lemma {:induction false} OpenAssignedToNone(tasks: seq<Task>)
    ensures OpenAssignedTo(tasks, {}) == 0
    decreases |tasks|
  {
    if tasks != [] { OpenAssignedToNone(tasks[..|tasks| - 1]); }
  }

  /**
   * With distinct user ids, the total of the workload rows is the number of open tasks
   * assigned to an active technician: every such task is counted exactly once.
   */
  lemma {:induction false} WorkloadTotalCountsEachTaskOnce(users: seq<User>, tasks: seq<Task>)
    requires forall i, j :: 0 <= i < j < |users| ==> users[i].id != users[j].id
    ensures RowTasks(WorkloadRows(users, tasks)) == OpenAssignedTo(tasks, ActiveIds(users))
    decreases |users|
  {
    if users == [] {
      OpenAssignedToNone(tasks);
    } else {
      var init := users[..|users| - 1];
      var u := users[|users| - 1];
      WorkloadTotalCountsEachTaskOnce(init, tasks);
      if ActiveTechnician(u) {
        ActiveIdsFrom(init, u.id);
        OpenAssignedToAdd(tasks, ActiveIds(init), u.id);
        var rows := WorkloadRows(init, tasks);
        assert (rows + [WorkloadRowOf(u, tasks)])[..|rows|] == rows;
        assert RowTasks(WorkloadRows(users, tasks)) == RowTasks(rows) + WorkloadRowOf(u, tasks).tasks;
        assert ActiveIds(users) == ActiveIds(init) + {u.id};
      } else {
        assert WorkloadRows(users, tasks) == WorkloadRows(init, tasks);
        assert ActiveIds(users) == ActiveIds(init);
      }
    }
  }

  lemma {:induction false} ActiveIdsFrom(users: seq<User>, id: nat)
    requires forall i :: 0 <= i < |users| ==> users[i].id != id
    ensures id !in ActiveIds(users)
    decreases |users|
  {
    if users != [] { ActiveIdsFrom(users[..|users| - 1], id); }
  }

  /** Sorting the rows does not change their total. */
  lemma {:induction false} RowTasksPermutation(a: seq<WorkloadRow>, b: seq<WorkloadRow>)
    requires multiset(a) == multiset(b)
    ensures RowTasks(a) == RowTasks(b)
    decreases |a|
  {
    if a != [] {
      var x := a[|a| - 1];
      assert x in multiset(b);
      var k :| 0 <= k < |b| && b[k] == x;
      var b' := b[..k] + b[k + 1..];
      assert b == b[..k] + [x] + b[k + 1..];
      assert a == a[..|a| - 1] + [x];
      assert multiset(b) == multiset(b[..k]) + multiset{x} + multiset(b[k + 1..]);
      assert multiset(b') == multiset(b[..k]) + multiset(b[k + 1..]);
      assert multiset(a) == multiset(a[..|a| - 1]) + multiset{x};
      assert multiset(a[..|a| - 1]) == multiset(a) - multiset{x};
      assert multiset(b') == multiset(b) - multiset{x};
      RowTasksPermutation(a[..|a| - 1], b');
      RowTasksRemove(b, k);
    }
  }

  lemma {:induction false} RowTasksRemove(b: seq<WorkloadRow>, k: nat)
    requires k < |b|
    ensures RowTasks(b) == RowTasks(b[..k] + b[k + 1..]) + b[k].tasks
    decreases |b|
  {
    if k < |b| - 1 {
      var init := b[..|b| - 1];
      var c := b[..k] + b[k + 1..];
      RowTasksRemove(init, k);
      assert init[k] == b[k];
      assert init[..k] + init[k + 1..] == c[..|c| - 1];
      assert c[|c| - 1] == b[|b| - 1];
      assert RowTasks(c) == RowTasks(c[..|c| - 1]) + c[|c| - 1].tasks;
      assert RowTasks(b) == RowTasks(init) + b[|b| - 1].tasks;
    } else {
      assert b[..k] + b[k + 1..] == b[..|b| - 1];
    }
  }

  /** The reported total is the number of open tasks assigned to active technicians. */
  lemma WorkloadTotal(users: seq<User>, tasks: seq<Task>)
    requires forall i, j :: 0 <= i < j < |users| ==> users[i].id != users[j].id
    ensures RowTasks(SortDesc(WorkloadRows(users, tasks), WorkloadTasks)) == OpenAssignedTo(tasks, ActiveIds(users))
  {
    WorkloadTotalCountsEachTaskOnce(users, tasks);
    RowTasksPermutation(SortDesc(WorkloadRows(users, tasks), WorkloadTasks), WorkloadRows(users, tasks));
  }

  // ----- Technician performance -----

  datatype PerformanceRow = PerformanceRow(
    name: string, completed: nat, inProgress: nat, total: nat,
    efficiency: real, totalRevenue: int, avgCompletionHours: real, rating: real)

  /** Tasks assigned to `id` created inside the window, optionally of one status. */
  function WindowCount(tasks: seq<Task>, id: nat, w: Window, s: Option<Status>): (n: nat)
    ensures n <= |tasks|
  {
    if tasks == [] then 0
    else
      var t := tasks[|tasks| - 1];
      WindowCount(tasks[..|tasks| - 1], id, w, s)
        + (if t.assignedTo == Some(id) && InWindow(w, t.createdAt) && (s.None? || t.status == s.value)
           then 1 else 0)
  }

  /** The window count is the number of the technician's tasks created in the window with that status. */
  lemma {:induction false} WindowCountIsCount(tasks: seq<Task>, id: nat, w: Window, s: Option<Status>)
    ensures WindowCount(tasks, id, w, s)
      == Count(tasks, (t: Task) => t.assignedTo == Some(id) && InWindow(w, t.createdAt) && (s.None? || t.status == s.value))
    decreases |tasks|
  {
    if tasks != [] { WindowCountIsCount(tasks[..|tasks| - 1], id, w, s); }
  }

  lemma {:induction false} WindowCountOfStatus(tasks: seq<Task>, id: nat, w: Window, s: Status)
    ensures WindowCount(tasks, id, w, Some(s)) <= WindowCount(tasks, id, w, None)
    decreases |tasks|
  {
    if tasks != [] { WindowCountOfStatus(tasks[..|tasks| - 1], id, w, s); }
  }

  /** Σ of the estimates of the Completed tasks of `id` inside the window (null read as 0). */
  function CompletedRevenue(tasks: seq<Task>, id: nat, w: Window): int {
    if tasks == [] then 0
    else
      var t := tasks[|tasks| - 1];
      CompletedRevenue(tasks[..|tasks| - 1], id, w)
        + (if t.assignedTo == Some(id) && InWindow(w, t.createdAt) && t.status == Completed
           then t.estimatedCost.GetOr(0) else 0)
  }

  /** Days from intake to hand-over of the Completed tasks of `id` inside the window that carry both dates. */
  function CompletionDays(tasks: seq<Task>, id: nat, w: Window): seq<int> {
    TurnaroundDays(Filter(tasks, (t: Task) => t.assignedTo == Some(id) && InWindow(w, t.createdAt)))
  }

  /**
   * `avg_completion_time` in hours: the mean of the day spans times 24, and 0 when no
   * task has both dates (`Avg` over no rows is null).
   */
  function AverageHours(days: seq<int>): (h: real)
    ensures days == [] ==> h == 0.0
    ensures days != [] ==> h * |days| as real == (24 * Sum(days)) as real
  {
    if days == [] then 0.0 else (24 * Sum(days)) as real / |days| as real
  }

  function Min(a: real, b: real): real { if a <= b then a else b }

  /** Efficiency in percent and the rating derived from it, capped at 5. */
  function Rating(efficiency: real): (r: real)
    ensures r <= 5.0
    ensures r == 5.0 <==> efficiency >= 50.0
  {
    Min(5.0, 3.0 + efficiency / 25.0)
  }

  /** Completed tasks as a percentage of all tasks, 0 when there are none. */
  function Efficiency(completed: nat, total: nat): (e: real)
    ensures total > 0 ==> e * total as real == (completed * 100) as real
    ensures total == 0 ==> e == 0.0
  {
    if total > 0 then (completed * 100) as real / total as real else 0.0
  }

  /** One technician's figures over the tasks created inside the window. */
  function PerformanceRowOf(u: User, tasks: seq<Task>, w: Window): (r: PerformanceRow)
    ensures r.completed <= r.total
    ensures r.efficiency == Efficiency(r.completed, r.total) && r.rating == Rating(r.efficiency)
  {
    var completed := WindowCount(tasks, u.id, w, Some(Completed));
    var total := WindowCount(tasks, u.id, w, None);
    WindowCountOfStatus(tasks, u.id, w, Completed);
    var efficiency := Efficiency(completed, total);
    PerformanceRow(u.FullName(), completed, WindowCount(tasks, u.id, w, Some(InProgress)), total,
      efficiency, CompletedRevenue(tasks, u.id, w), AverageHours(CompletionDays(tasks, u.id, w)),
      Rating(efficiency))
  }

  /** The active technicians with at least one Completed task in the window, in table order. */
  function PerformanceRows(users: seq<User>, tasks: seq<Task>, w: Window): (rows: seq<PerformanceRow>)
    ensures forall i :: 0 <= i < |rows| ==> rows[i].completed > 0
  {
    if users == [] then []
    else
      var u := users[|users| - 1];
      var r := PerformanceRowOf(u, tasks, w);
      PerformanceRows(users[..|users| - 1], tasks, w)
        + (if ActiveTechnician(u) && r.completed > 0 then [r] else [])
  }

  /**
   * The rows are exactly those of the active technicians who completed a task in the
   * window, one each, in table order.
   */
  lemma {:induction false} PerformanceRowsIsFilter(users: seq<User>, tasks: seq<Task>, w: Window)
    ensures PerformanceRows(users, tasks, w)
      == MapSeq(Filter(users, (u: User) => ActiveTechnician(u) && PerformanceRowOf(u, tasks, w).completed > 0),
                (u: User) => PerformanceRowOf(u, tasks, w))
    decreases |users|
  {
    if users != [] {
      var init, last := users[..|users| - 1], users[|users| - 1];
      PerformanceRowsIsFilter(init, tasks, w);
      var kept := Filter(init, (u: User) => ActiveTechnician(u) && PerformanceRowOf(u, tasks, w).completed > 0);
      assert (kept + [last])[..|kept|] == kept;
    }
  }

  /**
   * The source's row: its date filter names `created_at` inside `User.objects.annotate`,
   * so it tests the technician's own creation day. A technician who joined inside the
   * window is counted over all of their tasks, any other over none.
   */
  function PerformanceRowAsWritten(u: User, tasks: seq<Task>, w: Window): (r: PerformanceRow)
    ensures InWindow(w, u.createdAt) ==> r == PerformanceRowOf(u, tasks, Unbounded)
    ensures !InWindow(w, u.createdAt) ==> r.completed == 0 && r.inProgress == 0 && r.total == 0 && r.totalRevenue == 0
  {
    if InWindow(w, u.createdAt) then PerformanceRowOf(u, tasks, Unbounded)
    else PerformanceRow(u.FullName(), 0, 0, 0, 0.0, 0, 0.0, Rating(0.0))
  }

  /** The source's listing: active technicians whose as-written row shows a completed task. */
  function PerformanceRowsAsWritten(users: seq<User>, tasks: seq<Task>, w: Window): (rows: seq<PerformanceRow>)
    ensures forall i :: 0 <= i < |rows| ==> rows[i].completed > 0
  {
    if users == [] then []
    else
      var u := users[|users| - 1];
      var r := PerformanceRowAsWritten(u, tasks, w);
      PerformanceRowsAsWritten(users[..|users| - 1], tasks, w)
        + (if ActiveTechnician(u) && r.completed > 0 then [r] else [])
  }

  /**
   * As written, the report is the all-time report of the technicians who joined inside
   * the window: the window selects people, not tasks.
   */
  lemma {:induction false} PerformanceAsWrittenSelectsJoiners(users: seq<User>, tasks: seq<Task>, w: Window)
    ensures PerformanceRowsAsWritten(users, tasks, w)
      == PerformanceRows(Filter(users, (u: User) => InWindow(w, u.createdAt)), tasks, Unbounded)
    decreases |users|
  {
    if users != [] {
      var init, last := users[..|users| - 1], users[|users| - 1];
      PerformanceAsWrittenSelectsJoiners(init, tasks, w);
      var joined := Filter(init, (u: User) => InWindow(w, u.createdAt));
      assert (joined + [last])[..|joined|] == joined;
    }
  }

  /**
   * The discrepancy: an active technician who joined before the window and completed a
   * task created inside it is left out as written, and listed when the window is on the tasks.
   */
  lemma EarlierTechnicianOmitted(u: User, tasks: seq<Task>, w: Window)
    requires ActiveTechnician(u) && !InWindow(w, u.createdAt)
    requires WindowCount(tasks, u.id, w, Some(Completed)) > 0
    ensures PerformanceRowsAsWritten([u], tasks, w) == []
    ensures PerformanceRows([u], tasks, w) == [PerformanceRowOf(u, tasks, w)]
  {
    assert [u][..0] == [];
  }

  /** Every active technician who completed a task created in the window has a row. */
  lemma PerformanceListsWindowWork(users: seq<User>, tasks: seq<Task>, w: Window, u: User)
    requires u in users && ActiveTechnician(u) && WindowCount(tasks, u.id, w, Some(Completed)) > 0
    ensures PerformanceRowOf(u, tasks, w) in PerformanceRows(users, tasks, w)
  {
    var p := (v: User) => ActiveTechnician(v) && PerformanceRowOf(v, tasks, w).completed > 0;
    PerformanceRowsIsFilter(users, tasks, w);
    FilterMembership(users, p, u);
    var kept := Filter(users, p);
    var k :| 0 <= k < |kept| && kept[k] == u;
    assert MapSeq(kept, (v: User) => PerformanceRowOf(v, tasks, w))[k] == PerformanceRowOf(u, tasks, w);
  }

  datatype PerformanceReport = PerformanceReport(rows: seq<PerformanceRow>, dateRange: string, totalTechnicians: nat)

  /**
   * `generate_technician_performance_report` as written: the preset's window applied to
   * each technician's own creation day, and for those inside it their efficiency, revenue,
   * average completion time and rating over all of their tasks.
   */
  method GenerateTechnicianPerformanceReport(users: seq<User>, tasks: seq<Task>, dateRange: string, today: int)
    returns (report: PerformanceReport)
    ensures report.rows == PerformanceRowsAsWritten(users, tasks, PredefinedWindow(dateRange, today))
    ensures report.totalTechnicians == |report.rows| && report.dateRange == dateRange
  {
    var w := PredefinedWindow(dateRange, today);
    var rows: seq<PerformanceRow> := [];
    var i := 0;
    while i < |users|
      invariant 0 <= i <= |users|
      invariant rows == PerformanceRowsAsWritten(users[..i], tasks, w)
    {
      assert users[..i + 1][..i] == users[..i];
      var u := users[i];
      if ActiveTechnician(u) {
        var r := PerformanceRowAsWritten(u, tasks, w);
        if r.completed > 0 {
          rows := rows + [r];
        }
      }
      i := i + 1;
    }
    assert users[..|users|] == users;
    report := PerformanceReport(rows, dateRange, |rows|);
  }

  /**
   * Every listed technician completed something, so the efficiency lies in (0, 100]
   * and the rating in (3, 5], reaching 5 from 50% efficiency.
   */
  lemma PerformanceBounds(users: seq<User>, tasks: seq<Task>, w: Window, i: nat)
    ensures i < |PerformanceRows(users, tasks, w)| ==>
      var r := PerformanceRows(users, tasks, w)[i];
      && 0.0 < r.efficiency <= 100.0
      && 3.0 < r.rating <= 5.0
      && (r.rating == 5.0 <==> r.efficiency >= 50.0)
  {
    if i < |PerformanceRows(users, tasks, w)| {
      var r := PerformanceRows(users, tasks, w)[i];
      PerformanceRowShape(users, tasks, w, i);
      EfficiencyBounds(r.completed, r.total);
    }
  }

  /** The same bounds hold of the report as written, whose rows are all-time rows of the joiners. */
  lemma PerformanceBoundsAsWritten(users: seq<User>, tasks: seq<Task>, w: Window, i: nat)
    ensures i < |PerformanceRowsAsWritten(users, tasks, w)| ==>
      var r := PerformanceRowsAsWritten(users, tasks, w)[i];
      && 0.0 < r.efficiency <= 100.0
      && 3.0 < r.rating <= 5.0
      && (r.rating == 5.0 <==> r.efficiency >= 50.0)
  {
    PerformanceAsWrittenSelectsJoiners(users, tasks, w);
    PerformanceBounds(Filter(users, (u: User) => InWindow(w, u.createdAt)), tasks, Unbounded, i);
  }

  lemma EfficiencyBounds(completed: nat, total: nat)
    requires 0 < completed <= total
    ensures 0.0 < Efficiency(completed, total) <= 100.0
  {
  }

  lemma {:induction false} PerformanceRowShape(users: seq<User>, tasks: seq<Task>, w: Window, i: nat)
    ensures i < |PerformanceRows(users, tasks, w)| ==>
      var r := PerformanceRows(users, tasks, w)[i];
      && r.completed <= r.total
      && r.efficiency == Efficiency(r.completed, r.total)
      && r.rating == Rating(r.efficiency)
    decreases |users|
  {
    if users != [] {
      PerformanceRowShape(users[..|users| - 1], tasks, w, i);
    }
  }

  // ----- Turnaround times -----

  /** Days from intake to hand-over of the Completed tasks with both dates, in table order. */
  function TurnaroundDays(tasks: seq<Task>): seq<int> {
    if tasks == [] then []
    else
      var t := tasks[|tasks| - 1];
      TurnaroundDays(tasks[..|tasks| - 1])
        + (if t.status == Completed && t.dateIn.Some? && t.dateOut.Some? then [t.dateOut.value - t.dateIn.value] else [])
  }

  lemma TurnaroundDaysStep(tasks: seq<Task>, i: nat)
    requires i < |tasks|
    ensures var t := tasks[i];
      TurnaroundDays(tasks[..i + 1]) == TurnaroundDays(tasks[..i])
        + (if t.status == Completed && t.dateIn.Some? && t.dateOut.Some? then [t.dateOut.value - t.dateIn.value] else [])
  {
    assert tasks[..i + 1][..i] == tasks[..i];
  }

  function MinOf(xs: seq<int>): (m: int)
    requires xs != []
    ensures m in xs && forall i :: 0 <= i < |xs| ==> m <= xs[i]
  {
    if |xs| == 1 then xs[0]
    else
      var m := MinOf(xs[..|xs| - 1]);
      if xs[|xs| - 1] < m then xs[|xs| - 1] else m
  }

  function MaxOf(xs: seq<int>): (m: int)
    requires xs != []
    ensures m in xs && forall i :: 0 <= i < |xs| ==> xs[i] <= m
  {
    if |xs| == 1 then xs[0]
    else
      var m := MaxOf(xs[..|xs| - 1]);
      if xs[|xs| - 1] > m then xs[|xs| - 1] else m
  }

  datatype TurnaroundReport =
    | NoCompletedTasks
    | TurnaroundSummary(days: seq<int>, average: real, minimum: int, maximum: int, count: nat)

  /** The summary of a non-empty list of turnaround days. */
  function Summarise(days: seq<int>): (report: TurnaroundReport)
    requires days != []
    ensures report.TurnaroundSummary? && report.days == days && report.count == |days|
    ensures report.minimum in days && report.maximum in days
    ensures forall i :: 0 <= i < |days| ==> report.minimum <= days[i] <= report.maximum
    ensures report.average == Average(Sum(days), |days|)
    ensures report.minimum as real <= report.average <= report.maximum as real
  {
    var lo := MinOf(days);
    var hi := MaxOf(days);
    SumBetween(days, lo, hi);
    AverageBetween(Sum(days), |days|, lo, hi);
    TurnaroundSummary(days, Average(Sum(days), |days|), lo, hi, |days|)
  }

  /**
   * `generate_turnaround_time_report`: an error result when no Completed task has both
   * dates; otherwise the turnaround of each such task and their summary.
   */
  method GenerateTurnaroundTimeReport(tasks: seq<Task>) returns (report: TurnaroundReport)
    ensures report.NoCompletedTasks? <==> TurnaroundDays(tasks) == []
    ensures report.TurnaroundSummary? ==> report == Summarise(TurnaroundDays(tasks))
  {
    var days: seq<int> := [];
    var i := 0;
    while i < |tasks|
      invariant 0 <= i <= |tasks|
      invariant days == TurnaroundDays(tasks[..i])
    {
      TurnaroundDaysStep(tasks, i);
      var t := tasks[i];
      if t.status == Completed && t.dateIn.Some? && t.dateOut.Some? {
        days := days + [t.dateOut.value - t.dateIn.value];
      }
      i := i + 1;
    }
    assert tasks[..|tasks|] == tasks;
    if days == [] {
      return NoCompletedTasks;
    }
    report := Summarise(days);
  }

  lemma AverageBetween(total: int, count: nat, lo: int, hi: int)
    requires count > 0 && lo * count <= total <= hi * count
    ensures lo as real <= Average(total, count) <= hi as real
  {
    var c := count as real;
    assert (lo * count) as real == lo as real * c && (hi * count) as real == hi as real * c;
    assert lo as real * c <= total as real <= hi as real * c;
  }

  lemma {:induction false} SumBetween(xs: seq<int>, lo: int, hi: int)
    requires forall i :: 0 <= i < |xs| ==> lo <= xs[i] <= hi
    ensures lo * |xs| <= Sum(xs) <= hi * |xs|
    decreases |xs|
  {
    if xs != [] {
      var init := xs[..|xs| - 1];
      var n := |init|;
      assert forall i :: 0 <= i < n ==> init[i] == xs[i];
      SumBetween(init, lo, hi);
      assert Sum(xs) == Sum(init) + xs[n];
      MulSucc(lo, n);
      MulSucc(hi, n);
    }
  }

  lemma MulSucc(a: int, n: nat)
    ensures a * (n + 1) == a * n + a
  {
  }
}
