/**
 * The data migration that repopulates every task's `total_cost` and `paid_amount`
 * from its cost breakdown items and payments.
 */
module RepopulateCosts {
  import opened Basics
  import opened TaskModels
  import opened FinancialModels
  import opened Database
  import opened Signals

  /** The row the migration writes for task `key`: only the two cost columns change. */
  function PopulatedRow(t: Task, payments: seq<Payment>, items: seq<CostItem>, key: string): (r: Task)
    ensures r == t.(totalCost := r.totalCost, paidAmount := r.paidAmount)
    ensures r.paymentStatus == t.paymentStatus && r.paidDate == t.paidDate
  {
    t.(totalCost := Some(TotalCost(t.estimatedCost, ItemsOf(items, key))),
       paidAmount := Sum(PaymentAmounts(payments, key)))
  }

  /** Re-running the migration on its own output changes nothing. */
  lemma PopulatedRowIdempotent(t: Task, payments: seq<Payment>, items: seq<CostItem>, key: string)
    ensures PopulatedRow(PopulatedRow(t, payments, items, key), payments, items, key)
      == PopulatedRow(t, payments, items, key)
  {
  }

  /**
   * The migration writes the same two columns the ledger receivers would write: the
   * row equals the cost-item receiver followed by the payment receiver, except that the
   * payment status and paid date are left as they were. So the row ends up consistent
   * with its ledger exactly when its old payment status already fits the new amounts.
   */
  lemma PopulatedRowMatchesReceivers(t: Task, payments: seq<Payment>, items: seq<CostItem>, key: string, today: int)
    ensures var s := RecomputePaid(RecomputeTotal(t, payments, items, key, today), payments, key, today);
      PopulatedRow(t, payments, items, key) == s.(paymentStatus := t.paymentStatus, paidDate := t.paidDate)
    ensures var r := PopulatedRow(t, payments, items, key);
      Consistent(r, payments, items, key) <==> t.paymentStatus == ClassifyPayment(r.paidAmount, r.totalCost.value)
  {
  }

  /** The populated row is the task with its estimate plus additions minus deductions, and its payments' sum. */
  lemma PopulatedRowWrites(t: Task, payments: seq<Payment>, items: seq<CostItem>, key: string)
    ensures PopulatedRow(t, payments, items, key)
      == t.(totalCost := Some(t.estimatedCost.GetOr(0) + SumOfType(ItemsOf(items, key), Additive)
                               - SumOfType(ItemsOf(items, key), Subtractive)),
            paidAmount := Sum(PaymentAmounts(payments, key)))
  {
  }

  /**
   * The loop of `populate_task_costs`: visit every task once, in any order, and give it
   * its recomputed `total_cost` and `paid_amount`; no task is added or lost.
   */
  method PopulateRows(tasks: map<string, Task>, payments: seq<Payment>, items: seq<CostItem>)
    returns (out: map<string, Task>)
    ensures out.Keys == tasks.Keys
    ensures forall k :: k in out ==> out[k] == PopulatedRow(tasks[k], payments, items, k)
  {
    out := tasks;
    var pending := tasks.Keys;
    while pending != {}
      invariant pending <= out.Keys && out.Keys == tasks.Keys
      invariant forall k :: k in out && k !in pending ==>
        out[k] == PopulatedRow(tasks[k], payments, items, k)
      invariant forall k :: k in pending ==> out[k] == tasks[k]
      decreases pending
    {
      var key :| key in pending;
      var task := out[key];
      var estimated := task.estimatedCost.GetOr(0);
      var additive := SumOfType(ItemsOf(items, key), Additive);
      var subtractive := SumOfType(ItemsOf(items, key), Subtractive);
      var paid := Sum(PaymentAmounts(payments, key));
      var row := task.(totalCost := Some(estimated + additive - subtractive), paidAmount := paid);
      PopulatedRowWrites(task, payments, items, key);
      assert row == PopulatedRow(tasks[key], payments, items, key);
      ghost var before := out;
      out := out[key := row];
      pending := pending - {key};
      forall k | k in out && k !in pending ensures out[k] == PopulatedRow(tasks[k], payments, items, k) {
        if k != key { assert out[k] == before[k]; }
      }
    }
  }

  /**
   * `populate_task_costs`: every task is rewritten to its populated row; no other
   * column and no other table changes.
   */
  method PopulateTaskCosts(db: Db)
    modifies db
    ensures db.tasks.Keys == old(db.tasks.Keys)
    ensures forall k :: k in db.tasks ==>
      db.tasks[k] == PopulatedRow(old(db.tasks[k]), db.payments, db.costItems, k)
    ensures db.payments == old(db.payments) && db.costItems == old(db.costItems)
    ensures db.activities == old(db.activities) && db.expenditures == old(db.expenditures)
    ensures db.users == old(db.users) && db.locations == old(db.locations)
  {
    var tasks := PopulateRows(db.tasks, db.payments, db.costItems);
    db.tasks := tasks;
  }
}
