/**
 * The ledger hooks: the post-save/post-delete receivers on payments and cost
 * breakdown items, and the `Payment.save` override, which together keep a task's
 * derived fields (`paid_amount`, `total_cost`, `payment_status`, `paid_date`)
 * re-derived from its ledger rows after every change.
 */
module Signals {
  import opened Basics
  import opened TaskModels
  import opened FinancialModels
  import opened Database

  /** Payment receiver on one task row: full re-derivation of `paid_amount`, then the status. */
  function RecomputePaid(t: Task, payments: seq<Payment>, key: string, today: int): (r: Task)
    ensures r == t.(paidAmount := r.paidAmount, paymentStatus := r.paymentStatus, paidDate := r.paidDate)
    ensures r.paidAmount == Sum(PaymentAmounts(payments, key))
    ensures r.paymentStatus == ClassifyPayment(r.paidAmount, t.totalCost.GetOr(0))
  {
    UpdatePaymentStatus(t.(paidAmount := Sum(PaymentAmounts(payments, key))),
      PaymentAmounts(payments, key), today)
  }

  /** Cost-item receiver on one task row: full re-derivation of `total_cost`, then the status. */
  function RecomputeTotal(t: Task, payments: seq<Payment>, items: seq<CostItem>, key: string, today: int): (r: Task)
    ensures r == t.(totalCost := r.totalCost, paymentStatus := r.paymentStatus, paidDate := r.paidDate)
    ensures r.totalCost == Some(TotalCost(t.estimatedCost, ItemsOf(items, key)))
    ensures r.paymentStatus == ClassifyPayment(Sum(PaymentAmounts(payments, key)), r.totalCost.value)
  {
    UpdatePaymentStatus(t.(totalCost := Some(TotalCost(t.estimatedCost, ItemsOf(items, key)))),
      PaymentAmounts(payments, key), today)
  }

  /**
   * A task row agrees with its ledger: paid amount, total cost and payment status are
   * what a full re-derivation would give.
   */
  predicate Consistent(t: Task, payments: seq<Payment>, items: seq<CostItem>, key: string) {
    && t.paidAmount == Sum(PaymentAmounts(payments, key))
    && t.totalCost == Some(TotalCost(t.estimatedCost, ItemsOf(items, key)))
    && t.paymentStatus == ClassifyPayment(t.paidAmount, t.totalCost.value)
  }

  predicate AllConsistent(tasks: map<string, Task>, payments: seq<Payment>, items: seq<CostItem>) {
    forall k :: k in tasks ==> Consistent(tasks[k], payments, items, k)
  }

  /** Re-deriving twice gives the same row as re-deriving once, on any day. */
  lemma RecomputeIdempotent(t: Task, payments: seq<Payment>, items: seq<CostItem>, key: string, d1: int, d2: int)
    ensures RecomputePaid(RecomputePaid(t, payments, key, d1), payments, key, d2)
      == RecomputePaid(t, payments, key, d1)
    ensures RecomputeTotal(RecomputeTotal(t, payments, items, key, d1), payments, items, key, d2)
      == RecomputeTotal(t, payments, items, key, d1)
  {
  }

  lemma {:induction false} PaymentAmountsAppend(xs: seq<Payment>, ys: seq<Payment>, key: string)
    ensures PaymentAmounts(xs + ys, key) == PaymentAmounts(xs, key) + PaymentAmounts(ys, key)
    decreases |ys|
  {
    if ys == [] {
      assert xs + ys == xs;
    } else {
      var init := ys[..|ys| - 1];
      assert (xs + ys)[..|xs + ys| - 1] == xs + init;
      PaymentAmountsAppend(xs, init, key);
    }
  }

  lemma {:induction false} ItemsOfAppend(xs: seq<CostItem>, ys: seq<CostItem>, key: string)
    ensures ItemsOf(xs + ys, key) == ItemsOf(xs, key) + ItemsOf(ys, key)
    decreases |ys|
  {
    if ys == [] {
      assert xs + ys == xs;
    } else {
      var init := ys[..|ys| - 1];
      assert (xs + ys)[..|xs + ys| - 1] == xs + init;
      ItemsOfAppend(xs, init, key);
    }
  }

  /** A payment row only moves the ledger of the task it names. */
  lemma PaymentOfOtherTask(payments: seq<Payment>, p: Payment, key: string)
    requires p.task != Some(key)
    ensures PaymentAmounts(payments + [p], key) == PaymentAmounts(payments, key)
  {
    assert (payments + [p])[..|payments|] == payments;
  }

  lemma PaymentRemovedFromOtherTask(payments: seq<Payment>, i: nat, key: string)
    requires i < |payments| && payments[i].task != Some(key)
    ensures PaymentAmounts(payments[..i] + payments[i + 1..], key) == PaymentAmounts(payments, key)
  {
    assert payments == payments[..i] + [payments[i]] + payments[i + 1..];
    PaymentAmountsAppend(payments[..i] + [payments[i]], payments[i + 1..], key);
    PaymentAmountsAppend(payments[..i], payments[i + 1..], key);
    PaymentOfOtherTask(payments[..i], payments[i], key);
  }

  lemma CostItemOfOtherTask(items: seq<CostItem>, c: CostItem, key: string)
    requires c.task != key
    ensures ItemsOf(items + [c], key) == ItemsOf(items, key)
  {
    assert (items + [c])[..|items|] == items;
  }

  lemma CostItemRemovedFromOtherTask(items: seq<CostItem>, i: nat, key: string)
    requires i < |items| && items[i].task != key
    ensures ItemsOf(items[..i] + items[i + 1..], key) == ItemsOf(items, key)
  {
    assert items == items[..i] + [items[i]] + items[i + 1..];
    ItemsOfAppend(items[..i] + [items[i]], items[i + 1..], key);
    ItemsOfAppend(items[..i], items[i + 1..], key);
    CostItemOfOtherTask(items[..i], items[i], key);
  }

  /**
   * `update_task_on_payment_change`: for a payment attached to an existing task,
   * re-derive that task's paid amount and payment status; a payment with no task, or
   * one whose task no longer exists, changes nothing.
   */
  method OnPaymentChange(db: Db, p: Payment, today: int)
    modifies db
    ensures db.tasks == if p.task.Some? && p.task.value in old(db.tasks)
      then old(db.tasks)[p.task.value := RecomputePaid(old(db.tasks)[p.task.value], db.payments, p.task.value, today)]
      else old(db.tasks)
    ensures db.payments == old(db.payments) && db.costItems == old(db.costItems)
    ensures db.activities == old(db.activities) && db.expenditures == old(db.expenditures)
    ensures db.users == old(db.users) && db.locations == old(db.locations)
  {
    if p.task.Some? && p.task.value in db.tasks {
      var key := p.task.value;
      var task := db.tasks[key];
      task := task.(paidAmount := Sum(PaymentAmounts(db.payments, key)));
      task := UpdatePaymentStatus(task, PaymentAmounts(db.payments, key), today);
      db.tasks := db.tasks[key := task];
    }
  }

  /**
   * `update_task_on_cost_breakdown_change`: re-derive the total cost of the item's task
   * (when it exists) and then its payment status.
   */
  method OnCostItemChange(db: Db, c: CostItem, today: int)
    modifies db
    ensures db.tasks == if c.task in old(db.tasks)
      then old(db.tasks)[c.task := RecomputeTotal(old(db.tasks)[c.task], db.payments, db.costItems, c.task, today)]
      else old(db.tasks)
    ensures db.payments == old(db.payments) && db.costItems == old(db.costItems)
    ensures db.activities == old(db.activities) && db.expenditures == old(db.expenditures)
    ensures db.users == old(db.users) && db.locations == old(db.locations)
  {
    if c.task in db.tasks {
      var task := db.tasks[c.task];
      task := task.(totalCost := Some(TotalCost(task.estimatedCost, ItemsOf(db.costItems, c.task))));
      task := UpdatePaymentStatus(task, PaymentAmounts(db.payments, c.task), today);
      db.tasks := db.tasks[c.task := task];
    }
  }

  /**
   * `Payment.save`: persist the row (the post-save receiver runs as part of it), then
   * recompute the task's payment status once more when a task is attached. The second
   * recomputation is a no-op, so the net effect is one re-derivation.
   */
  method SavePayment(db: Db, p: Payment, today: int)
    modifies db
    ensures db.payments == old(db.payments) + [p]
    ensures db.tasks == if p.task.Some? && p.task.value in old(db.tasks)
      then old(db.tasks)[p.task.value := RecomputePaid(old(db.tasks)[p.task.value], db.payments, p.task.value, today)]
      else old(db.tasks)
    ensures db.costItems == old(db.costItems) && db.activities == old(db.activities)
    ensures db.expenditures == old(db.expenditures)
    ensures db.users == old(db.users) && db.locations == old(db.locations)
    ensures AllConsistent(old(db.tasks), old(db.payments), old(db.costItems))
      ==> AllConsistent(db.tasks, db.payments, db.costItems)
  {
    ghost var tasks0, payments0 := db.tasks, db.payments;
    db.payments := db.payments + [p];
    OnPaymentChange(db, p, today);
    if p.task.Some? && p.task.value in db.tasks {
      var key := p.task.value;
      SecondPassNoOp(tasks0[key], db.payments, key, today);
      db.tasks := db.tasks[key := UpdatePaymentStatus(db.tasks[key], PaymentAmounts(db.payments, key), today)];
      UpdateTwice(tasks0, key, RecomputePaid(tasks0[key], db.payments, key, today), db.tasks[key]);
    }
    if AllConsistent(tasks0, payments0, db.costItems) {
      PaymentKeepsConsistency(tasks0, payments0, db.costItems, p, today);
    }
  }

  /** The status pass `Payment.save` repeats after the receiver leaves the row as it is. */
  lemma SecondPassNoOp(t: Task, payments: seq<Payment>, key: string, today: int)
    ensures var r := RecomputePaid(t, payments, key, today);
      UpdatePaymentStatus(r, PaymentAmounts(payments, key), today) == r
  {
  }

  /** A new payment row, with its receiver run, keeps every task row consistent. */
  lemma PaymentKeepsConsistency(tasks: map<string, Task>, payments: seq<Payment>, items: seq<CostItem>,
                                p: Payment, today: int)
    requires AllConsistent(tasks, payments, items)
    ensures AllConsistent(
      if p.task.Some? && p.task.value in tasks
      then tasks[p.task.value := RecomputePaid(tasks[p.task.value], payments + [p], p.task.value, today)]
      else tasks,
      payments + [p], items)
  {
    var tasks' := if p.task.Some? && p.task.value in tasks
      then tasks[p.task.value := RecomputePaid(tasks[p.task.value], payments + [p], p.task.value, today)]
      else tasks;
    forall k | k in tasks' ensures Consistent(tasks'[k], payments + [p], items, k) {
      if p.task != Some(k) { PaymentOfOtherTask(payments, p, k); }
    }
  }

  /** Removing payment row `i`, with its receiver run, keeps every task row consistent. */
  lemma PaymentRemovalKeepsConsistency(tasks: map<string, Task>, payments: seq<Payment>, items: seq<CostItem>,
                                       i: nat, today: int)
    requires i < |payments|
    requires AllConsistent(tasks, payments, items)
    ensures var p, rest := payments[i], payments[..i] + payments[i + 1..];
      AllConsistent(
        if p.task.Some? && p.task.value in tasks
        then tasks[p.task.value := RecomputePaid(tasks[p.task.value], rest, p.task.value, today)]
        else tasks,
        rest, items)
  {
    var p, rest := payments[i], payments[..i] + payments[i + 1..];
    var tasks' := if p.task.Some? && p.task.value in tasks
      then tasks[p.task.value := RecomputePaid(tasks[p.task.value], rest, p.task.value, today)]
      else tasks;
    forall k | k in tasks' ensures Consistent(tasks'[k], rest, items, k) {
      if p.task != Some(k) { PaymentRemovedFromOtherTask(payments, i, k); }
    }
  }

  /** A new cost item, with its receiver run, keeps every task row consistent. */
  lemma CostItemKeepsConsistency(tasks: map<string, Task>, payments: seq<Payment>, items: seq<CostItem>,
                                 c: CostItem, today: int)
    requires AllConsistent(tasks, payments, items)
    ensures AllConsistent(
      if c.task in tasks
      then tasks[c.task := RecomputeTotal(tasks[c.task], payments, items + [c], c.task, today)]
      else tasks,
      payments, items + [c])
  {
    var tasks' := if c.task in tasks
      then tasks[c.task := RecomputeTotal(tasks[c.task], payments, items + [c], c.task, today)]
      else tasks;
    forall k | k in tasks' ensures Consistent(tasks'[k], payments, items + [c], k) {
      if c.task != k { CostItemOfOtherTask(items, c, k); }
    }
  }

  /** Removing cost item `i`, with its receiver run, keeps every task row consistent. */
  lemma CostItemRemovalKeepsConsistency(tasks: map<string, Task>, payments: seq<Payment>, items: seq<CostItem>,
                                        i: nat, today: int)
    requires i < |items|
    requires AllConsistent(tasks, payments, items)
    ensures var c, rest := items[i], items[..i] + items[i + 1..];
      AllConsistent(
        if c.task in tasks
        then tasks[c.task := RecomputeTotal(tasks[c.task], payments, rest, c.task, today)]
        else tasks,
        payments, rest)
  {
    var c, rest := items[i], items[..i] + items[i + 1..];
    var tasks' := if c.task in tasks
      then tasks[c.task := RecomputeTotal(tasks[c.task], payments, rest, c.task, today)]
      else tasks;
    forall k | k in tasks' ensures Consistent(tasks'[k], payments, rest, k) {
      if c.task != k { CostItemRemovedFromOtherTask(items, i, k); }
    }
  }

  /** Deleting payment `i`: remove the row, then the post-delete receiver re-derives. */
  method DeletePayment(db: Db, i: nat, today: int)
    requires i < |db.payments|
    modifies db
    ensures db.payments == old(db.payments[..i] + db.payments[i + 1..])
    ensures var p := old(db.payments[i]);
      db.tasks == if p.task.Some? && p.task.value in old(db.tasks)
      then old(db.tasks)[p.task.value := RecomputePaid(old(db.tasks)[p.task.value], db.payments, p.task.value, today)]
      else old(db.tasks)
    ensures db.costItems == old(db.costItems) && db.activities == old(db.activities)
    ensures db.expenditures == old(db.expenditures)
    ensures db.users == old(db.users) && db.locations == old(db.locations)
    ensures AllConsistent(old(db.tasks), old(db.payments), old(db.costItems))
      ==> AllConsistent(db.tasks, db.payments, db.costItems)
  {
    ghost var tasks0, payments0 := db.tasks, db.payments;
    var p := db.payments[i];
    db.payments := db.payments[..i] + db.payments[i + 1..];
    OnPaymentChange(db, p, today);
    if AllConsistent(tasks0, payments0, db.costItems) {
      PaymentRemovalKeepsConsistency(tasks0, payments0, db.costItems, i, today);
    }
  }

  /** Creating a cost breakdown item, followed by its post-save receiver. */
  method SaveCostItem(db: Db, c: CostItem, today: int)
    modifies db
    ensures db.costItems == old(db.costItems) + [c]
    ensures db.tasks == if c.task in old(db.tasks)
      then old(db.tasks)[c.task := RecomputeTotal(old(db.tasks)[c.task], db.payments, db.costItems, c.task, today)]
      else old(db.tasks)
    ensures db.payments == old(db.payments) && db.activities == old(db.activities)
    ensures db.expenditures == old(db.expenditures)
    ensures db.users == old(db.users) && db.locations == old(db.locations)
    ensures AllConsistent(old(db.tasks), old(db.payments), old(db.costItems))
      ==> AllConsistent(db.tasks, db.payments, db.costItems)
  {
    ghost var tasks0, items0 := db.tasks, db.costItems;
    db.costItems := db.costItems + [c];
    OnCostItemChange(db, c, today);
    if AllConsistent(tasks0, db.payments, items0) {
      CostItemKeepsConsistency(tasks0, db.payments, items0, c, today);
    }
  }

  /** Deleting cost item `i`, followed by its post-delete receiver. */
  method DeleteCostItem(db: Db, i: nat, today: int)
    requires i < |db.costItems|
    modifies db
    ensures db.costItems == old(db.costItems[..i] + db.costItems[i + 1..])
    ensures var c := old(db.costItems[i]);
      db.tasks == if c.task in old(db.tasks)
      then old(db.tasks)[c.task := RecomputeTotal(old(db.tasks)[c.task], db.payments, db.costItems, c.task, today)]
      else old(db.tasks)
    ensures db.payments == old(db.payments) && db.activities == old(db.activities)
    ensures db.expenditures == old(db.expenditures)
    ensures db.users == old(db.users) && db.locations == old(db.locations)
    ensures AllConsistent(old(db.tasks), old(db.payments), old(db.costItems))
      ==> AllConsistent(db.tasks, db.payments, db.costItems)
  {
    ghost var tasks0, items0 := db.tasks, db.costItems;
    var c := db.costItems[i];
    db.costItems := db.costItems[..i] + db.costItems[i + 1..];
    OnCostItemChange(db, c, today);
    if AllConsistent(tasks0, db.payments, items0) {
      CostItemRemovalKeepsConsistency(tasks0, db.payments, items0, i, today);
    }
  }
}
