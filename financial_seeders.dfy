/**
 * The payment seeder: the amounts of the deposit, progress and final payments, the
 * months a task's payments are scheduled in, the extra payments that top up a quiet
 * month, the payment day drawn in a month of 2025, and the recomputation of every
 * task's paid amount and payment status from its payments. Random draws (the
 * percentage, the number of payments, the day) are parameters; money is in cents.
 */
module FinancialSeeders {
  import opened Basics
  import opened TaskModels
  import opened FinancialModels
  import opened Database
  import Calendar

  // ----- Payment amounts -----

  /** The deposit shares `calculate_first_payment` draws from, in per cent. */
  const DEPOSIT_PERCENTAGES: seq<nat> := [20, 30, 40, 50]

  /** The progress-payment shares `calculate_progress_payment` draws from, in per cent. */
  const PROGRESS_PERCENTAGES: seq<nat> := [20, 30, 40]

  /**
   * `(total_cost * percentage).quantize(Decimal('1.'))`: the drawn share of the total,
   * rounded half-even to whole currency units (a multiple of 100 cents).
   */
  function SharePayment(total: int, percentage: nat): (amount: int)
    ensures amount % 100 == 0
    ensures -5000 <= amount * 100 - total * percentage <= 5000
  {
    100 * HalfEven(total * percentage, 10000)
  }

  /**
   * A share of at most half of a non-negative total is never negative and never more
   * than the total; this covers every deposit and progress percentage.
   */
  lemma SharePaymentBounded(total: int, percentage: nat)
    requires 0 <= total && percentage <= 50
    ensures 0 <= SharePayment(total, percentage) <= total
  {
    var x := total * percentage;
    var h := HalfEven(x, 10000);
    assert 0 <= x <= 50 * total by {
      MulBounded(total, percentage, 50);
    }
    assert SharePayment(total, percentage) == 100 * h;
  }

  /** `a * b <= a * c` for a non-negative `a` and `b <= c`, both non-negative. */
  lemma MulBounded(a: int, b: nat, c: int)
    requires 0 <= a && b <= c
    ensures 0 <= a * b <= a * c
  {
    assert a * c - a * b == a * (c - b);
  }

  /** Every drawn deposit and progress percentage is at most half. */
  lemma PercentagesAtMostHalf()
    ensures forall p :: p in DEPOSIT_PERCENTAGES ==> p <= 50
    ensures forall p :: p in PROGRESS_PERCENTAGES ==> p <= 50
  {
  }

  /**
   * `calculate_final_payment`: the remaining balance, never below zero, rounded
   * half-even to whole units.
   */
  function FinalPayment(total: int, existing: int): (amount: int)
    ensures amount >= 0 && amount % 100 == 0
    ensures existing >= total ==> amount == 0
    ensures existing < total ==> -50 <= existing + amount - total <= 50
  {
    var remaining := if total - existing > 0 then total - existing else 0;
    100 * HalfEven(remaining, 100)
  }

  // ----- Payment schedule -----

  /** A task the seeder may schedule payments for, as `seed_payments` reads it. */
  datatype Candidate = Candidate(key: string, totalCost: int, status: Status, createdMonth: int)

  /** Tasks with nothing to pay or still Pending get no schedule. */
  predicate Schedulable(c: Candidate) {
    c.totalCost > 0 && c.status != Pending
  }

  function Min(a: int, b: int): int {
    if a <= b then a else b
  }

  /**
   * The months of a task's `count` payments: the creation month, then the next one or
   * two, capped at December.
   */
  function PaymentMonths(createdMonth: int, count: nat): (months: seq<int>)
    requires 1 <= createdMonth <= 12 && 1 <= count <= 3
    ensures |months| == count
    ensures months == [createdMonth, Min(12, createdMonth + 1), Min(12, createdMonth + 2)][..count]
    ensures forall i :: 0 <= i < count ==> createdMonth <= months[i] <= 12
    ensures forall i, j :: 0 <= i <= j < count ==> months[i] <= months[j]
  {
    if count == 1 then [createdMonth]
    else if count == 2 then [createdMonth, Min(12, createdMonth + 1)]
    else [createdMonth, Min(12, createdMonth + 1), Min(12, createdMonth + 2)]
  }

  /**
   * The first loop of `seed_payments`: a schedule for every schedulable task, with the
   * drawn number of payments; tasks are distinct rows, so their keys are distinct.
   */
  method AssignSchedules(tasks: seq<Candidate>, counts: seq<nat>) returns (schedules: map<string, seq<int>>)
    requires |counts| == |tasks| && forall i :: 0 <= i < |counts| ==> 1 <= counts[i] <= 3
    requires forall i :: 0 <= i < |tasks| ==> 1 <= tasks[i].createdMonth <= 12
    requires forall i, j :: 0 <= i < j < |tasks| ==> tasks[i].key != tasks[j].key
    ensures forall k :: k in schedules <==> exists i :: 0 <= i < |tasks| && tasks[i].key == k && Schedulable(tasks[i])
    ensures forall i :: 0 <= i < |tasks| && Schedulable(tasks[i]) ==>
      schedules[tasks[i].key] == PaymentMonths(tasks[i].createdMonth, counts[i])
  {
    schedules := map[];
    for n := 0 to |tasks|
      invariant forall k :: k in schedules <==> exists i :: 0 <= i < n && tasks[i].key == k && Schedulable(tasks[i])
      invariant forall i :: 0 <= i < n && Schedulable(tasks[i]) ==>
        schedules[tasks[i].key] == PaymentMonths(tasks[i].createdMonth, counts[i])
    {
      if Schedulable(tasks[n]) {
        schedules := schedules[tasks[n].key := PaymentMonths(tasks[n].createdMonth, counts[n])];
      }
    }
  }

  /** `payment_months.index(month)`: the first position of `month`. */
  function FirstIndex(months: seq<int>, month: int): (i: nat)
    requires month in months
    ensures i < |months| && months[i] == month
    ensures forall j :: 0 <= j < i ==> months[j] != month
  {
    if months[0] == month then 0 else 1 + FirstIndex(months[1..], month)
  }

  /**
   * A scheduled payment is due in `month` when the month is in the schedule and its
   * first position equals the number of payments made so far.
   */
  predicate Due(months: seq<int>, month: int, made: nat) {
    month in months && FirstIndex(months, month) == made
  }

  /**
   * Only the first occurrence of a repeated month can ever be due: a payment whose
   * month repeats the one before it is never made by the scheduled pass.
   */
  lemma RepeatedMonthNeverDue(months: seq<int>, k: nat)
    requires 0 < k < |months| && months[k] == months[k - 1]
    ensures !Due(months, months[k], k)
  {
    var i := FirstIndex(months, months[k]);
    assert i <= k - 1;
  }

  /** A schedule created in December holds December once, whatever the count. */
  lemma DecemberScheduleOnce(count: nat, made: nat)
    requires 1 <= count <= 3
    ensures Due(PaymentMonths(12, count), 12, made) <==> made == 0
  {
  }

  // ----- Extra payments -----

  /** A scheduled task as the extra pass sees it: its total, its payments so far and their sum. */
  datatype Tracked = Tracked(key: string, totalCost: int, createdMonth: int, scheduled: nat, made: nat, paid: int)

  /** What a payment adds to the tracking of its task. */
  function Record(t: Tracked, amount: int): (r: Tracked)
    ensures r.paid == t.paid + amount && r.made == t.made + 1
    ensures r.key == t.key && r.totalCost == t.totalCost && r.createdMonth == t.createdMonth
    ensures r.scheduled == t.scheduled
  {
    t.(made := t.made + 1, paid := t.paid + amount)
  }

  /**
   * The test an extra payment passes: the task still has scheduled payments to make,
   * the month is not before its creation, and the progress amount is positive and does
   * not take the paid sum above the total.
   */
  predicate ExtraAllowed(t: Tracked, month: int, amount: int) {
    t.made < t.scheduled && month >= t.createdMonth && amount > 0 && t.paid + amount <= t.totalCost
  }

  /** The progress payment the extra pass makes for the i-th task. */
  function ExtraPayment(t: Tracked, percentage: nat, day: int): (p: Payment)
    ensures p.task == Some(t.key) && p.amount == SharePayment(t.totalCost, percentage) && p.date == day
  {
    Payment(Some(t.key), SharePayment(t.totalCost, percentage), day, "Additional progress payment for " + t.key)
  }

  /** Whether the i-th task passes the test with its own draw. */
  predicate AllowedAt(tracked: seq<Tracked>, month: int, percentages: seq<nat>, i: nat)
    requires i < |tracked| == |percentages|
  {
    ExtraAllowed(tracked[i], month, SharePayment(tracked[i].totalCost, percentages[i]))
  }

  /** The payments the pass makes over the first `n` tasks when the target is not reached. */
  function ExtraCreated(tracked: seq<Tracked>, month: int, percentages: seq<nat>, days: seq<int>, n: nat)
    : (created: seq<Payment>)
    requires n <= |tracked| && |percentages| == |tracked| == |days|
    ensures |created| <= n
    ensures forall i :: 0 <= i < |created| ==> created[i].amount > 0
  {
    if n == 0 then []
    else
      ExtraCreated(tracked, month, percentages, days, n - 1)
        + (if AllowedAt(tracked, month, percentages, n - 1)
           then [ExtraPayment(tracked[n - 1], percentages[n - 1], days[n - 1])] else [])
  }

  /**
   * The pass visited the first `stop` tasks and stopped there because the target was
   * met or no task was left: each visited task that passes the test got one payment,
   * in order, and every other task is untouched.
   */
  predicate StoppedAt(tracked: seq<Tracked>, month: int, needed: nat, percentages: seq<nat>, days: seq<int>,
                      stop: nat, after: seq<Tracked>, created: seq<Payment>)
  {
    && |percentages| == |tracked| == |days| == |after|
    && stop <= |tracked|
    && (stop == |tracked| || |created| == needed)
    && created == ExtraCreated(tracked, month, percentages, days, stop)
    && forall i :: 0 <= i < |tracked| ==>
         after[i] == (if i < stop && AllowedAt(tracked, month, percentages, i)
                      then Record(tracked[i], SharePayment(tracked[i].totalCost, percentages[i]))
                      else tracked[i])
  }

  /**
   * The second loop of a month of `seed_payments`: while the month is short of its
   * target, each scheduled task that passes the test gets one progress payment dated in
   * the month. `percentages[i]` and `days[i]` are the draws for the i-th task.
   */
  method ExtraPayments(tracked: seq<Tracked>, month: int, needed: nat, percentages: seq<nat>, days: seq<int>)
    returns (after: seq<Tracked>, created: seq<Payment>)
    requires |percentages| == |tracked| == |days|
    ensures |after| == |tracked| && |created| <= needed
    ensures exists stop :: StoppedAt(tracked, month, needed, percentages, days, stop, after, created)
    ensures forall i :: 0 <= i < |tracked| && tracked[i].paid <= tracked[i].totalCost ==>
      after[i].paid <= after[i].totalCost
    ensures forall i :: 0 <= i < |created| ==> created[i].amount > 0 && created[i].date in days
  {
    after := tracked;
    created := [];
    var n := 0;
    while n < |tracked| && |created| < needed
      invariant 0 <= n <= |tracked| && |after| == |tracked| && |created| <= needed
      invariant created == ExtraCreated(tracked, month, percentages, days, n)
      invariant forall i :: 0 <= i < |tracked| ==>
        after[i] == (if i < n && AllowedAt(tracked, month, percentages, i)
                     then Record(tracked[i], SharePayment(tracked[i].totalCost, percentages[i]))
                     else tracked[i])
      invariant forall i :: 0 <= i < |created| ==> created[i].date in days
    {
      var t := tracked[n];
      var amount := SharePayment(t.totalCost, percentages[n]);
      if ExtraAllowed(t, month, amount) {
        created := created + [Payment(Some(t.key), amount, days[n], "Additional progress payment for " + t.key)];
        after := after[n := Record(t, amount)];
      }
      n := n + 1;
    }
    assert StoppedAt(tracked, month, needed, percentages, days, n, after, created);
  }

  // ----- Payment days -----

  /** The greatest day `generate_monthly_payment_date` draws in a month of 2025. */
  function MaxDrawDay(month: int): (d: int) {
    if month in {1, 3, 5, 7, 8, 10, 12} then 31
    else if month == 2 then 28
    else 30
  }

  /** Every day drawn for a month of 2025 exists: the bounds are that year's month lengths. */
  lemma DrawnDaysValid(month: int, day: int)
    requires 1 <= month <= 12 && 1 <= day <= MaxDrawDay(month)
    ensures Calendar.Valid(Calendar.Date(2025, month, day))
    ensures MaxDrawDay(month) == Calendar.DaysInMonth(2025, month)
  {
  }

  // ----- Payment status recomputation -----

  /**
   * The status `update_task_payment_statuses` gives: nothing paid is Unpaid, less
   * than the total Partially Paid, anything else Fully Paid. An unset total compared
   * with a non-zero sum raises, which is `None`.
   */
  function SeederStatus(paid: int, total: Option<int>): (s: Option<PaymentStatus>)
    ensures s.None? <==> paid != 0 && total.None?
    ensures s.Some? ==> s.value != Refunded
    ensures s == Some(Unpaid) <==> paid == 0
    ensures s == Some(PartiallyPaid) <==> paid != 0 && total.Some? && paid < total.value
    ensures s == Some(FullyPaid) <==> paid != 0 && total.Some? && paid >= total.value
  {
    if paid == 0 then Some(Unpaid)
    else if total.None? then None
    else if paid < total.value then Some(PartiallyPaid)
    else Some(FullyPaid)
  }

  /**
   * The seeder and the model's own status rule agree except on an overpayment, which
   * the seeder calls Fully Paid and the model Refunded.
   */
  lemma SeederStatusAgainstModel(paid: int, total: int)
    ensures paid <= total ==> SeederStatus(paid, Some(total)) == Some(ClassifyPayment(paid, total))
    ensures paid > total && paid != 0 ==>
      SeederStatus(paid, Some(total)) == Some(FullyPaid) && ClassifyPayment(paid, total) == Refunded
  {
  }

  /** The latest date among the payments of task `key`, if it has any. */
  function LatestDate(payments: seq<Payment>, key: string): (d: Option<int>)
    ensures d.None? <==> forall i :: 0 <= i < |payments| ==> payments[i].task != Some(key)
    ensures d.Some? ==> exists i :: 0 <= i < |payments| && payments[i].task == Some(key) && payments[i].date == d.value
    ensures d.Some? ==> forall i :: 0 <= i < |payments| && payments[i].task == Some(key) ==> payments[i].date <= d.value
  {
    if payments == [] then None
    else
      var last := payments[|payments| - 1];
      var rest := LatestDate(payments[..|payments| - 1], key);
      if last.task != Some(key) then rest
      else if rest.Some? && rest.value >= last.date then rest
      else Some(last.date)
  }

  /**
   * The task after its recomputation: the paid amount is the sum of its payments, the
   * status follows it, and a Fully Paid task without a paid date takes its latest
   * payment's date. `None` when the comparison raises.
   */
  function Recomputed(t: Task, payments: seq<Payment>, key: string): (r: Option<Task>)
    ensures r.None? <==> SeederStatus(Sum(PaymentAmounts(payments, key)), t.totalCost).None?
    ensures r.Some? ==>
      && r.value.paidAmount == Sum(PaymentAmounts(payments, key))
      && Some(r.value.paymentStatus) == SeederStatus(Sum(PaymentAmounts(payments, key)), t.totalCost)
      && (r.value.paymentStatus != FullyPaid || t.paidDate.Some? ==> r.value.paidDate == t.paidDate)
      && (r.value.paymentStatus == FullyPaid && t.paidDate.None? ==> r.value.paidDate == LatestDate(payments, key))
      && r.value == t.(paidAmount := r.value.paidAmount, paymentStatus := r.value.paymentStatus,
                       paidDate := r.value.paidDate)
  {
    var paid := Sum(PaymentAmounts(payments, key));
    match SeederStatus(paid, t.totalCost)
    case None => None
    case Some(status) =>
      var paidDate := if status == FullyPaid && t.paidDate.None? then LatestDate(payments, key) else t.paidDate;
      Some(t.(paidAmount := paid, paymentStatus := status, paidDate := paidDate))
  }

  /** A task with a non-zero paid sum has a payment, so a recomputed Fully Paid task has a paid date. */
  lemma {:induction false} NonZeroSumHasPayment(payments: seq<Payment>, key: string)
    requires Sum(PaymentAmounts(payments, key)) != 0
    ensures LatestDate(payments, key).Some?
    decreases |payments|
  {
    var init := payments[..|payments| - 1];
    if payments[|payments| - 1].task != Some(key) {
      assert PaymentAmounts(payments, key) == PaymentAmounts(init, key);
      NonZeroSumHasPayment(init, key);
      assert LatestDate(init, key).Some?;
    }
  }

  /** After the recomputation every Fully Paid task has a paid date. */
  lemma FullyPaidHasDate(t: Task, payments: seq<Payment>, key: string)
    requires Recomputed(t, payments, key).Some? && Recomputed(t, payments, key).value.paymentStatus == FullyPaid
    ensures Recomputed(t, payments, key).value.paidDate.Some?
  {
    if t.paidDate.None? {
      NonZeroSumHasPayment(payments, key);
    }
  }

  /**
   * `update_task_payment_statuses`: every task, in query order, is recomputed from its
   * payments and saved. A task with no total and a non-zero paid sum raises and ends
   * the run: `stoppedAt` is its position, the tasks before it saved and the rest untouched.
   */
  method UpdateTaskPaymentStatuses(db: Db, order: seq<string>) returns (stoppedAt: Option<nat>)
    modifies db
    requires Distinct(order) && forall k :: k in db.tasks <==> k in order
    ensures db.tasks.Keys == old(db.tasks.Keys)
    ensures db.payments == old(db.payments) && db.costItems == old(db.costItems)
    ensures db.activities == old(db.activities) && db.users == old(db.users)
    ensures db.expenditures == old(db.expenditures) && db.locations == old(db.locations)
    ensures stoppedAt.GetOr(|order|) <= |order|
    ensures forall i :: 0 <= i < stoppedAt.GetOr(|order|) ==>
      Recomputed(old(db.tasks)[order[i]], db.payments, order[i]) == Some(db.tasks[order[i]])
    ensures forall i :: stoppedAt.GetOr(|order|) <= i < |order| ==> db.tasks[order[i]] == old(db.tasks)[order[i]]
    ensures stoppedAt.Some? ==>
      stoppedAt.value < |order| && Recomputed(old(db.tasks)[order[stoppedAt.value]], db.payments, order[stoppedAt.value]).None?
  {
    var tasks;
    tasks, stoppedAt := RecomputeInOrder(db.tasks, db.payments, order);
    db.tasks := tasks;
  }

  /** The loop of `update_task_payment_statuses`, over the task table as a value. */
  method RecomputeInOrder(tasks: map<string, Task>, payments: seq<Payment>, order: seq<string>)
      returns (saved: map<string, Task>, stoppedAt: Option<nat>)
    requires Distinct(order) && forall i :: 0 <= i < |order| ==> order[i] in tasks
    ensures saved.Keys == tasks.Keys
    ensures stoppedAt.GetOr(|order|) <= |order|
    ensures forall i :: 0 <= i < stoppedAt.GetOr(|order|) ==>
      Recomputed(tasks[order[i]], payments, order[i]) == Some(saved[order[i]])
    ensures forall i :: stoppedAt.GetOr(|order|) <= i < |order| ==> saved[order[i]] == tasks[order[i]]
    ensures stoppedAt.Some? ==>
      stoppedAt.value < |order| && Recomputed(tasks[order[stoppedAt.value]], payments, order[stoppedAt.value]).None?
  {
    saved := tasks;
    var i := 0;
    while i < |order|
      invariant 0 <= i <= |order|
      invariant saved.Keys == tasks.Keys
      invariant forall j :: 0 <= j < i ==> Recomputed(tasks[order[j]], payments, order[j]) == Some(saved[order[j]])
      invariant forall j :: i <= j < |order| ==> saved[order[j]] == tasks[order[j]]
    {
      var key := order[i];
      var r := Recomputed(saved[key], payments, key);
      if r.None? {
        return saved, Some(i);
      }
      assert saved[key] == tasks[key];
      saved := saved[key := r.value];
      assert forall j :: 0 <= j < i ==> order[j] != key;
      i := i + 1;
    }
    stoppedAt := None;
  }
}
