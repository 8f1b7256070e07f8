# Repair-shop task, ledger and report model

This project models the core of a laptop repair shop's back office in Dafny and proves
properties of that model. The shop keeps a table of repair tasks. Each task has a status,
a customer, an assigned technician, a workshop stay, a cost breakdown and payments. The
project covers the Django backend and the Next.js frontend, one module per source file.

The backend side:

- **task models and status transitions**: the payment-status classification, the role
  table that says which status moves each role may make, and the workshop send and return;
- **task views**: task ID generation and the update handler with its debt, payment-status,
  workshop and status helpers, run against a `Database.Db` object whose tables change in place;
- **ledger**: the payment and cost-item signals that recompute a task's paid amount and
  total cost, the expenditure requests (approve, reject, create-and-approve), the payment
  listing and the daily financial summary, the cost repopulation migration, and the
  financial seeder;
- **reports**: the revenue overview, the predefined reports (outstanding payments, task
  status, workload, performance, turnaround), the two report services (date windows, task
  selection, row building, summaries), and the task seeder;
- **customers and users**: customer phone reconciliation and the user serializers.

The frontend side:

- the status transition table;
- the notification context;
- the new-task form, with its phone formatter and validation;
- the custom report builder;
- the payment status panel, the return-task dialog and the task details page;
- the data selection of the report PDF generator.

Units: money is an integer number of cents, a date is an integer day number, and the
seeders' activity times are minutes. Clocks and random draws are parameters. Where a
source operation changes state (the database handlers, the customer store, the frontend
components), it is a class method with `modifies` and a contract that states the whole
new state. Pure computations are functions, with lemmas for the properties the source
promises. A loop in the source is a method with loop invariants, proved against a
specification function.

Three modules support the rest: `Basics` (options, sums, filters, sorting), `Text`
(trimming, digits, number formatting, splitting) and `Calendar` (day numbers and ISO dates).

## Model

| member | source | states |
|---|---|---|
| StatusTransitions.CanTransition | django_backend/Eapp/status_transitions.py:22-33 | superusers and Managers may always move a task; anyone else exactly when the new status is listed in their role's row for the current status |
| StatusTransitions.FrontDeskRowExact | django_backend/Eapp/status_transitions.py:5-11 | a non-superuser Front Desk user may make exactly the moves Completed→{Ready for Pickup, In Progress, Pending}, Ready for Pickup→{Picked Up, Pending, In Progress}, Picked Up→{In Progress}, Pending→{Terminated}, In Progress→{Terminated, Pending} |
| StatusTransitions.TechnicianRowExact | django_backend/Eapp/status_transitions.py:12-16 | a non-superuser Technician may make exactly Pending→In Progress, In Progress→{Awaiting Parts, Completed}, Awaiting Parts→In Progress |
| StatusTransitions.UnlistedRoleNeverTransitions | django_backend/Eapp/status_transitions.py:29-33 | a role without a row (Accountant or any other string) can never move a task |
| StatusTransitions.NoSelfTransition | django_backend/Eapp/status_transitions.py:4-20 | no row lists a self-transition, so a non-privileged user cannot re-submit the current status |
| StatusTransitions.DeadEnds | django_backend/Eapp/status_transitions.py:5-16 | nothing leaves Terminated, Cancelled or Ready for QC for a non-privileged user; a Technician cannot leave Completed, Ready for Pickup or Picked Up; the Front Desk cannot leave Awaiting Parts |
| FrontendTransitions.ConcatKeys | lib/status-transitions.ts:25 | a status is in the concatenation exactly when it is a key of some role's row |
| FrontendTransitions.GetAllowedStatusTransitions | lib/status-transitions.ts:22-34 | Manager gets the concatenated row keys whatever the current status; a role without a row gets nothing |
| FrontendTransitions.ManagerList | lib/status-transitions.ts:23-26 | the Manager list is the ten row keys in table order, the same for every current status |
| FrontendTransitions.ManagerListIsNotTargets | lib/status-transitions.ts:25 | the Manager list repeats entries and never contains Cancelled, Picked Up or Terminated: it lists source statuses, not targets |
| FrontendTransitions.FrontDeskRowExact | lib/status-transitions.ts:4-11 | the Front Desk is offered exactly Completed→Ready for Pickup, Ready for Pickup→Picked Up, and Cancelled from Pending, In Progress, Awaiting Parts and Ready for QC |
| FrontendTransitions.TechnicianRowExact | lib/status-transitions.ts:12-16 | the Technician is offered exactly Pending→In Progress, In Progress→{Awaiting Parts, Ready for QC}, Awaiting Parts→In Progress |
| FrontendTransitions.UnlistedStatusOffersNothing | lib/status-transitions.ts:33 | a known role is offered nothing from a status its row does not list |
| FrontendTransitions.TablesDisagree | lib/status-transitions.ts:12-16 | the frontend offers moves the backend refuses (Technician In Progress→Ready for QC, Front Desk Pending→Cancelled) and omits moves the backend allows (Technician In Progress→Completed, Front Desk Pending→Terminated) |
| TaskModels.LabelsDistinct | django_backend/Eapp/models.py:125-145 | status and payment-status labels are distinct, so a stored label determines its enum value |
| TaskModels.OutstandingBalance | django_backend/Eapp/models.py:197-202 | nothing is outstanding while the total cost is null or zero; otherwise balance plus all payments equals the total cost |
| TaskModels.ClassifyPayment | django_backend/Eapp/models.py:204-216 | exactly one label: Unpaid iff paid is 0, Partially Paid iff paid is non-zero and below the total, Fully Paid iff equal, Refunded iff above |
| TaskModels.UpdatePaymentStatus | django_backend/Eapp/models.py:204-217 | only the payment status and paid date change; the status is the classification of the payment sum against the total (null read as 0); an existing paid date is kept, and an unset one becomes today exactly when Fully Paid is reached |
| TaskModels.ZeroTotalIsUnpaid | django_backend/Eapp/models.py:207-208 | with a null or zero total and no net payment the task is Unpaid, not Fully Paid, and nothing is outstanding |
| TaskModels.NegativeNetIsPartial | django_backend/Eapp/models.py:209-210 | a negative net paid amount against a non-negative total is Partially Paid |
| TaskModels.PaidDateSticky | django_backend/Eapp/models.py:211-214 | a set paid date is never cleared or moved, and a Fully Paid task always has one |
| TaskModels.UpdatePaymentStatusIdempotent | django_backend/Eapp/models.py:204-217 | recomputing with the same payments on any later day leaves the row unchanged |
| TaskModels.FullyPaidMeansNothingOutstanding | django_backend/Eapp/models.py:197-216 | on a positive total, Fully Paid iff the outstanding balance is 0 and Refunded iff it is negative |
| TaskIds.MonthPrefix | django_backend/Eapp/views.py:30-39 | the prefix is the year letter ('A' with no tasks, otherwise 'A' plus the years since the oldest task) followed by the unpadded month |
| TaskIds.WithPrefix | django_backend/Eapp/views.py:42 | a title is kept exactly when it is a title that starts with the prefix |
| TaskIds.GenerateTaskIdShape | django_backend/Eapp/views.py:27-52 | every generated ID is the prefix, a dash and at least three digits; generation fails exactly when the greatest matching title does not end in a number |
| TaskIds.FirstIdOfEmptyTable | django_backend/Eapp/views.py:35-52 | with no tasks the ID is "A" + month + "-001" |
| TaskIds.GenerateFromLast | django_backend/Eapp/views.py:44-52 | with greatest matching title ending in n, the ID is the prefix, a dash and n + 1 padded to three digits |
| TaskIds.JanuaryReadsOctober | django_backend/Eapp/views.py:39-42 | the unpadded month makes "A1" match October's "A10-005", so January continues at "A1-006" |
| TaskIds.DuplicateAfter999 | django_backend/Eapp/views.py:42-47 | with "A1-999" and "A1-1000" present the lexicographic maximum is "A1-999" and the generated ID "A1-1000" already exists |
| TaskIds.NonNumericSuffixFails | django_backend/Eapp/views.py:46 | a greatest matching title whose last piece is not a number makes generation fail |
| TaskIds.MaxSeqUnder | django_backend/Eapp/views.py:42-47 | the result bounds every sequence number used under exactly "prefix-" |
| TaskIds.NextTaskId | django_backend/Eapp/views.py:27-52 | the corrected generator's ID starts with "prefix-" and is never an existing title |
| TaskIds.NextTaskIdAdvances | django_backend/Eapp/views.py:44-50 | the corrected ID's number is one more than the greatest used, and appending it raises that maximum by one |
| TaskViews.GuardsNested | django_backend/Eapp/views.py:86-91 | whoever may delete a task may create one; the Front Desk may create but not delete; a plain Technician or Accountant may do neither |
| TaskViews.DebtActivities | django_backend/Eapp/views.py:153-157 | one status-update activity is logged exactly when the request sets `is_debt` to true |
| TaskViews.PaymentOverride | django_backend/Eapp/views.py:159-164 | only an Accountant's requested payment status is taken, Fully Paid stamps today as the paid date, and no other field changes |
| TaskViews.WorkshopSend | django_backend/Eapp/views.py:167-174 | 404 exactly when the technician or location is unknown; otherwise the old location and the sender are remembered, the task is In Workshop at the workshop's location, and nothing else changes |
| TaskViews.WorkshopReturn | django_backend/Eapp/views.py:176-184 | a named remembered location is restored and cleared, the task goes back to the sender, the workshop references are cleared, status and payment are untouched |
| TaskViews.ReturnActivities | django_backend/Eapp/views.py:185-188 | one workshop activity is logged exactly when the request reports Solved or Not Solved |
| TaskViews.HandleStatus | django_backend/Eapp/views.py:190-219 | refused exactly when the transition policy forbids the move, with the role and both statuses in the message; an accepted step changes at most the assignee and stamps pickup data only for Picked Up |
| TaskViews.AcceptedPickup | django_backend/Eapp/views.py:199-208 | an accepted move to Picked Up logs exactly the pickup message |
| TaskViews.AcceptedAssignment | django_backend/Eapp/views.py:210-218 | an accepted Front Desk move to In Progress naming a user assigns the task to that existing Technician and logs the assignment |
| TaskViews.ApplyRequest | django_backend/Eapp/views.py:141-143 | for each writable key (status, assignee, the three workshop fields, sent-out-by, date out, debt flag, paid date, current location) the serializer writes the sent value when the key is present and keeps the old value when it is absent; the read-only payment status and the original location are never written |
| TaskViews.ApplyRequestPartial | django_backend/Eapp/views.py:141-143 | a request with no keys leaves the row unchanged, and writing the same request twice is writing it once |
| TaskViews.ApplyRequestKeepsOtherColumns | django_backend/Eapp/views.py:141-143 | columns the request has no key for (title, customer, amounts, intake day, workshop timestamps, creation day) are never written |
| TaskViews.WorkshopLogic | django_backend/Eapp/views.py:166-188 | 404 exactly for a send naming an unknown technician or location; a request with neither a send nor a return leaves the task unchanged; status and payment are never touched |
| TaskViews.HandleUpdate | django_backend/Eapp/views.py:124-145 | a successful update leaves the returned task as the row; a 403 or 404 leaves the payment-override row |
| TaskViews.UpdateOutcome | django_backend/Eapp/views.py:124-145 | 404 for an unknown title; only row `key` changes; the log only grows, by activities about that task |
| TaskViews.HandleDebtStatus | django_backend/Eapp/views.py:153-157 | appends the debt activity and changes nothing else |
| TaskViews.HandlePaymentStatusUpdate | django_backend/Eapp/views.py:159-164 | saves `PaymentOverride` of the row and changes nothing else |
| TaskViews.HandleWorkshopLogic | django_backend/Eapp/views.py:166-188 | computes `WorkshopLogic` of the row, logs the return activity on success, and saves nothing |
| TaskViews.HandleStatusUpdate | django_backend/Eapp/views.py:190-219 | computes `HandleStatus` and logs its activities only when the move is accepted |
| TaskViews.FinishUpdate | django_backend/Eapp/views.py:136-145 | a refused or missing step leaves the table unchanged; an accepted one saves the serializer's write of the request |
| TaskViews.Update | django_backend/Eapp/views.py:124-145 | the whole endpoint: 404 without change for an unknown title, otherwise the response, row and log of `HandleUpdate`; payments, costs and users are untouched |
| TaskViews.WorkshopRoundTrip | django_backend/Eapp/views.py:166-184 | a send followed by a return restores a named location and assigns the task to the sender |
| TaskViews.DoubleSendLosesHome | django_backend/Eapp/views.py:167-178 | a second send overwrites the remembered location, so the return goes to the first workshop instead of home |
| TaskViews.RefusedStatusKeepsEarlierEffects | django_backend/Eapp/views.py:131-139 | a refused status change still keeps the debt and return activities and the Accountant's saved payment status |
| TaskViews.ForbiddenExactlyWhenPolicyRefuses | django_backend/Eapp/views.py:136-196 | for an existing task without a failing send, 403 exactly when the policy forbids the move, with the documented message |
| TaskViews.RowKeepsOverridePayment | django_backend/Eapp/views.py:132-143 | the row left by an update carries the payment status of the override, and its paid date too unless the request writes one |
| TaskViews.OnlyAccountantSetsPaymentStatus | django_backend/Eapp/views.py:159-164 | no one but an Accountant changes any task's payment status through update; the paid date, which the serializer writes for any caller, is kept when the request does not send one |
| TaskViews.PickupStamps | django_backend/Eapp/views.py:199-208 | an accepted move to Picked Up records the actor as sender, today as date out, and logs the pickup message last |
| TaskViews.FrontDeskAssignsTechnician | django_backend/Eapp/views.py:210-218 | a successful Front Desk move to In Progress naming a user assigns it to that existing Technician and logs so last |
| Signals.RecomputePaid | django_backend/financials/signals.py:7-14 | the paid amount becomes the sum of the task's payments and the status is classified from it; only the three derived fields change |
| Signals.RecomputeTotal | django_backend/financials/signals.py:18-25 | the total cost becomes the estimate plus the task's cost items and the status is classified against it; only the three derived fields change |
| Signals.RecomputeIdempotent | django_backend/financials/signals.py:7-25 | re-deriving a row a second time, on any day, changes nothing |
| Signals.PaymentAmountsAppend | django_backend/financials/signals.py:12 | the amounts of a task over two ledgers joined are the amounts of each, in order |
| Signals.ItemsOfAppend | django_backend/financials/signals.py:23 | the cost items of a task over two ledgers joined are the items of each, in order |
| Signals.PaymentOfOtherTask | django_backend/financials/signals.py:10-12 | a payment row leaves the ledger of every other task unchanged |
| Signals.PaymentRemovedFromOtherTask | django_backend/financials/signals.py:7-14 | deleting a payment row leaves the ledger of every other task unchanged |
| Signals.CostItemOfOtherTask | django_backend/financials/signals.py:20-23 | a cost item leaves the cost items of every other task unchanged |
| Signals.CostItemRemovedFromOtherTask | django_backend/financials/signals.py:18-25 | deleting a cost item leaves the cost items of every other task unchanged |
| Signals.OnPaymentChange | django_backend/financials/signals.py:7-16 | an attached, existing task is re-derived from the payments; otherwise nothing changes |
| Signals.OnCostItemChange | django_backend/financials/signals.py:18-27 | an existing task's total and status are re-derived from its cost items; otherwise nothing changes |
| Signals.SavePayment | django_backend/financials/models.py:55-58 | saving a payment appends it, re-derives its task once, and keeps every task consistent with the ledger |
| Signals.SecondPassNoOp | django_backend/financials/models.py:57-58 | the status pass that `Payment.save` repeats after the receiver changes nothing |
| Signals.PaymentKeepsConsistency | django_backend/financials/signals.py:7-14 | a new payment with its receiver keeps every task row equal to its re-derivation |
| Signals.PaymentRemovalKeepsConsistency | django_backend/financials/signals.py:7-14 | removing a payment with its receiver keeps every task row equal to its re-derivation |
| Signals.CostItemKeepsConsistency | django_backend/financials/signals.py:18-25 | a new cost item with its receiver keeps every task row equal to its re-derivation |
| Signals.CostItemRemovalKeepsConsistency | django_backend/financials/signals.py:18-25 | removing a cost item with its receiver keeps every task row equal to its re-derivation |
| Signals.DeletePayment | django_backend/financials/signals.py:7-16 | deleting a payment removes exactly that row, re-derives its task and keeps every task consistent |
| Signals.SaveCostItem | django_backend/financials/signals.py:18-27 | saving a cost item appends it, re-derives its task's total and keeps every task consistent |
| Signals.DeleteCostItem | django_backend/financials/signals.py:18-27 | deleting a cost item removes exactly that row, re-derives its task's total and keeps every task consistent |
| FinancialModels.NewCostItem | django_backend/financials/models.py:74-79 | an omitted cost type is Inclusive, an omitted status Approved and an omitted category "Inclusive"; a given category, cost type and status are kept, and so are the task, description and amount |
| FinancialModels.NewExpenditureRequest | django_backend/financials/models.py:111-121 | a new request is Pending with no approver, and an omitted cost type is Inclusive |
| FinancialModels.ItemsOf | django_backend/financials/signals.py:20-23 | an item is selected exactly when it is one of the items and belongs to the task |
| FinancialModels.ItemsOfIsFilter | django_backend/financials/signals.py:20-23 | the selection is the items of the task, in table order |
| FinancialModels.Contribution | django_backend/Eapp/migrations/0006_repopulate_task_costs.py:9-11 | an item adds its amount when Additive, subtracts it when Subtractive and adds nothing when Inclusive |
| FinancialModels.NewCostItemMovesTotal | django_backend/financials/signals.py:18-27 | a new cost item moves its task's total by exactly its contribution, and one without a cost type leaves the total unchanged |
| FinancialModels.TotalCostSnoc | django_backend/Eapp/migrations/0006_repopulate_task_costs.py:8-11 | one more cost item moves the total by exactly its signed contribution |
| FinancialModels.TotalCostIsSumOfContributions | django_backend/Eapp/migrations/0006_repopulate_task_costs.py:8-11 | the total cost is the estimate (null as 0) plus the sum of the items' contributions |
| RepopulateCosts.PopulatedRow | django_backend/Eapp/migrations/0006_repopulate_task_costs.py:8-16 | only total cost and paid amount are written; payment status and paid date are left as they were |
| RepopulateCosts.PopulatedRowIdempotent | django_backend/Eapp/migrations/0006_repopulate_task_costs.py:4-16 | running the migration on its own output changes nothing |
| RepopulateCosts.PopulatedRowMatchesReceivers | django_backend/Eapp/migrations/0006_repopulate_task_costs.py:8-14 | the migration writes the total cost and paid amount the cost-item and payment receivers would write, and leaves payment status and paid date alone; the row is then consistent with its ledger exactly when its old status already fits |
| RepopulateCosts.PopulateRows | django_backend/Eapp/migrations/0006_repopulate_task_costs.py:6-16 | every task of the table, and no other key, ends up as its populated row: total cost from its estimate and cost items, paid amount from its payments |
| RepopulateCosts.PopulateTaskCosts | django_backend/Eapp/migrations/0006_repopulate_task_costs.py:4-16 | every task, and only the task table, is rewritten to its populated row; no task is added or lost |
| FinancialSeeders.SharePayment | django_backend/Eapp/financials/seeders.py:245-255 | a drawn share is a whole number of currency units within half a unit of total × percentage |
| FinancialSeeders.SharePaymentBounded | django_backend/Eapp/financials/seeders.py:245-255 | a share of at most half of a non-negative total lies between 0 and the total |
| FinancialSeeders.PercentagesAtMostHalf | django_backend/Eapp/financials/seeders.py:247-253 | every deposit and progress percentage is at most 50 |
| FinancialSeeders.FinalPayment | django_backend/Eapp/financials/seeders.py:257-260 | the final payment is never negative, is 0 once the total is reached, and otherwise settles the balance to within half a unit |
| FinancialSeeders.PaymentMonths | django_backend/Eapp/financials/seeders.py:94-106 | the months are the first `count` of the creation month and the next two capped at December, all in range and non-decreasing |
| FinancialSeeders.AssignSchedules | django_backend/Eapp/financials/seeders.py:84-106 | exactly the tasks with a positive total that are not Pending get a schedule, with the drawn number of months |
| FinancialSeeders.FirstIndex | django_backend/Eapp/financials/seeders.py:133 | the first position holding the month |
| FinancialSeeders.RepeatedMonthNeverDue | django_backend/Eapp/financials/seeders.py:130-136 | a payment whose month repeats the previous one is never due |
| FinancialSeeders.DecemberScheduleOnce | django_backend/Eapp/financials/seeders.py:94-136 | a December schedule is due only for its first payment, whatever the count |
| FinancialSeeders.Record | django_backend/Eapp/financials/seeders.py:210-222 | recording a payment adds its amount to the paid sum and one to the count, and nothing else |
| FinancialSeeders.ExtraPayments | django_backend/Eapp/financials/seeders.py:180-231 | at most the missing number of payments are created, each positive and dated in the month; the pass stops only when the target is met or every task was visited, every visited task that passes the test was topped up once and no other task changed, the payments made are `ExtraCreated` of the visited tasks in order, and a task not overpaid before stays not overpaid |
| FinancialSeeders.ExtraCreated | django_backend/Eapp/financials/seeders.py:184-222 | the payments for the first n tasks are at most n, each with a positive amount |
| FinancialSeeders.ExtraPayment | django_backend/Eapp/financials/seeders.py:210-220 | the extra payment belongs to the task, carries the drawn share and is dated on the drawn day |
| FinancialSeeders.DrawnDaysValid | django_backend/Eapp/financials/seeders.py:262-272 | every drawn day is a valid date of that month of 2025, whose length is the bound |
| FinancialSeeders.SeederStatus | django_backend/Eapp/financials/seeders.py:299-304 | nothing paid is Unpaid, less than the total Partially Paid, at least the total Fully Paid, never Refunded; a missing total with a non-zero sum fails |
| FinancialSeeders.SeederStatusAgainstModel | django_backend/Eapp/financials/seeders.py:299-304 | the seeder agrees with the model's rule except on overpayment, which it calls Fully Paid and the model Refunded |
| FinancialSeeders.LatestDate | django_backend/Eapp/financials/seeders.py:306-309 | none exactly when the task has no payment; otherwise the date of one of its payments and no earlier than any other |
| FinancialSeeders.Recomputed | django_backend/Eapp/financials/seeders.py:292-309 | the paid amount is the sum of the payments, the status follows the seeder's rule, an unset paid date of a Fully Paid task becomes the latest payment date, and nothing else changes |
| FinancialSeeders.NonZeroSumHasPayment | django_backend/Eapp/financials/seeders.py:296-309 | a task with a non-zero paid sum has at least one payment |
| FinancialSeeders.FullyPaidHasDate | django_backend/Eapp/financials/seeders.py:303-309 | after the recomputation every Fully Paid task has a paid date |
| FinancialSeeders.UpdateTaskPaymentStatuses | django_backend/Eapp/financials/seeders.py:283-314 | the tasks before the first failing one are recomputed and saved, the rest are untouched, and no other table changes |
| FinancialSeeders.RecomputeInOrder | django_backend/Eapp/financials/seeders.py:292-313 | the same loop over the task table as a value |
| FinancialViews.ApprovalPayment | django_backend/financials/views.py:192-198 | the booked payment belongs to the request's task, possibly none, and carries the negated amount |
| FinancialViews.ApprovalCostItem | django_backend/financials/views.py:202-210 | the cost item belongs to the task and carries the positive amount, the request's cost type and status Approved |
| FinancialViews.ApprovalItems | django_backend/financials/views.py:201 | one cost item when the request names a task, none otherwise |
| FinancialViews.BookExpenditure | django_backend/financials/views.py:192-210 | appends the payment and the cost items, changes only the linked task, and keeps every task consistent with the ledger |
| FinancialViews.ApprovalLedgerEffect | django_backend/financials/views.py:192-210 | for a linked task the paid sum drops by the amount and the total cost moves by the item's contribution |
| FinancialViews.Approve | django_backend/financials/views.py:179-213 | 404 for an unknown request and 400 unless Pending, with nothing changed; otherwise Approved with the caller as approver and the ledger entries booked |
| FinancialViews.Reject | django_backend/financials/views.py:216-229 | 400 unless Pending; otherwise Rejected with the caller as approver, and no payment or cost item is created |
| FinancialViews.CreateAndApprove | django_backend/financials/views.py:144-176 | a new request stored Approved with the caller as requester and approver, and the same ledger entries as `approve` |
| FinancialViews.NoSecondDecision | django_backend/financials/views.py:181-222 | an approved or rejected request is no longer Pending, so a second decision is refused |
| FinancialViews.VisibleRequests | django_backend/financials/views.py:118-131 | a request is listed exactly when the user is staff, Manager or Admin or made it, and it matches the optional status |
| FinancialViews.OwnRequestsOnly | django_backend/financials/views.py:124-125 | other users never see a request they did not make |
| FinancialViews.StatusFilterNarrows | django_backend/financials/views.py:127-129 | the status filter only narrows the listing |
| FinancialViews.ListPayments | django_backend/financials/views.py:81-92 | the listing is a sub-multiset of the payments holding exactly those matching the switched-on filters; with no filter it is the whole table |
| FinancialViews.RefundFlagIgnoresValue | django_backend/financials/views.py:89-90 | `is_refunded=false` filters exactly like `is_refunded=true` |
| FinancialViews.FinancialSummary | django_backend/financials/views.py:239-283 | a missing date and an unparseable date give their 400 texts; otherwise total revenue is the sum of that day's `Revenue`, total expenditures the sum of its `ApprovedSpending`, and net their difference |
| FinancialViews.NegativePaymentsIgnored | django_backend/financials/views.py:259-262 | a payment of zero or less never changes the day's revenue |
| FinancialViews.SummaryDateIsCanonical | django_backend/financials/views.py:248-292 | the reported date is ten characters and parses to the requested date |
| Calendar.DaysInMonth | django_backend/Eapp/financials/seeders.py:265-270 | a month has 28 to 31 days, and February has 29 exactly in a leap year |
| Calendar.Ordinal | django_backend/reports/predefined_reports.py:69 | the day number of a valid date is at least 1 |
| Calendar.OrdinalNextDay | django_backend/reports/predefined_reports.py:69 | consecutive days of a month are one day number apart, so date differences count days |
| Calendar.OrdinalNextMonth | django_backend/reports/predefined_reports.py:69 | the first of a month follows the last day of the month before it |
| Calendar.FieldValue | django_backend/financials/views.py:248 | a month field denotes 1 to 12 and a day field 1 to 31 |
| Calendar.ParseIsoDate | django_backend/financials/views.py:248 | a parsed date is valid and its year is the four leading digits |
| Calendar.IsoFormat | django_backend/financials/views.py:292 | the rendering is always ten characters |
| Calendar.ParseIsoFormat | django_backend/financials/views.py:248-292 | parsing the ISO rendering of a valid date gives that date back |
| Calendar.ParseNormalises | django_backend/financials/views.py:248-292 | re-parsing the rendering of a parsed date gives the same date |
| RevenueOverview.Change | django_backend/reports/views.py:52-53 | (now − before) / before × 100 exactly when before is non-zero, otherwise exactly 100; no change gives 0 |
| RevenueOverview.RevenueOverview | django_backend/reports/views.py:14-61 | the opening balance is the signed sum before today, revenue the sum of the positive payments of the day, expenditure the absolute sum of its negative payments, both non-negative; the day-over-day change compares today's revenue with yesterday's, and the expenditure change compares the signed spending sums of today and yesterday, both by `Change` |
| RevenueOverview.OpeningBalanceAdvances | django_backend/reports/views.py:22-49 | tomorrow's opening balance is today's plus today's revenue and today's (negative) expenditure, so zero-amount payments count for nothing |
| RevenueOverview.QuietDaysReportHundred | django_backend/reports/views.py:52 | with no revenue today or yesterday the reported change is 100 |
| RevenueOverview.ExpenditureRaisesFigure | django_backend/reports/views.py:40-59 | a new negative payment today raises the reported expenditure by its size and leaves revenue alone |
| PredefinedReports.DaysOverdue | django_backend/reports/predefined_reports.py:69 | 0 without an intake date, otherwise the number of days from intake to today |
| PredefinedReports.OutstandingRowOf | django_backend/reports/predefined_reports.py:46-81 | a row exists exactly for an Unpaid or Partially Paid task whose ledger total exceeds its payments, and carries that total, the paid sum and their positive difference |
| PredefinedReports.OutstandingRows | django_backend/reports/predefined_reports.py:50-81 | every listed balance is positive |
| PredefinedReports.Balances | django_backend/reports/predefined_reports.py:86 | one balance per row, in row order |
| PredefinedReports.OutstandingRowsMembership | django_backend/reports/predefined_reports.py:46-81 | every task that qualifies has its row in the list |
| PredefinedReports.GenerateOutstandingPaymentsReport | django_backend/reports/predefined_reports.py:43-95 | the rows are the qualifying rows sorted by balance, highest first; total, count and average follow, and the total is zero exactly when there are no rows |
| PredefinedReports.Average | django_backend/reports/predefined_reports.py:93 | total / count, or 0 when there are no rows |
| PredefinedReports.SumPositive | django_backend/reports/predefined_reports.py:86 | a sum of positive balances is positive unless empty |
| PredefinedReports.AllStatusesListed | django_backend/Eapp/models.py:125-133 | the status list names every status once |
| PredefinedReports.StatusCount | django_backend/reports/predefined_reports.py:99-101 | a status never counts more tasks than there are |
| PredefinedReports.StatusRows | django_backend/reports/predefined_reports.py:99-113 | each row is a status that some task has, with its share of all tasks |
| PredefinedReports.GenerateTaskStatusReport | django_backend/reports/predefined_reports.py:97-125 | the total is the number of tasks, the rows are the grouped status counts and the urgency distribution is `UrgencyDistribution` of the tasks |
| PredefinedReports.UrgencyDistribution | django_backend/reports/predefined_reports.py:116-118 | an urgency has an entry exactly when some task has it, and the entry is the number of tasks of that urgency |
| PredefinedReports.UrgencyCountsPositive | django_backend/reports/predefined_reports.py:116-118 | no urgency is listed with a count of 0 |
| PredefinedReports.CountsOverSnoc | django_backend/reports/predefined_reports.py:99-101 | one more task adds one to the counts over a list of distinct statuses that holds its status |
| PredefinedReports.CountsCoverAllTasks | django_backend/reports/predefined_reports.py:99-103 | the counts of all statuses add up to the number of tasks |
| PredefinedReports.CountsOverNoTasks | django_backend/reports/predefined_reports.py:99-101 | no tasks give zero counts |
| PredefinedReports.RowCountsMatch | django_backend/reports/predefined_reports.py:99-113 | the rows' counts add up to the status counts |
| PredefinedReports.RowCountsStep | django_backend/reports/predefined_reports.py:107-113 | one more status adds its count to the rows' total |
| PredefinedReports.RowCountsSnoc | django_backend/reports/predefined_reports.py:107-113 | one more row adds its count |
| PredefinedReports.RowPercentagesOfCounts | django_backend/reports/predefined_reports.py:108 | the percentages of rows add up to their counts' share of the total |
| PredefinedReports.PercentageAdd | django_backend/reports/predefined_reports.py:108 | shares of the same total add like their counts |
| PredefinedReports.StatusReportAddsUp | django_backend/reports/predefined_reports.py:97-113 | the per-status counts sum to the total and, with tasks, the percentages to 100; no tasks give no rows |
| PredefinedReports.WholeIsHundred | django_backend/reports/predefined_reports.py:108 | the whole is 100 per cent |
| PredefinedReports.RowCountsIsCount | django_backend/reports/predefined_reports.py:99-113 | every row's count is the number of tasks with its status |
| PredefinedReports.AssignedCount | django_backend/reports/predefined_reports.py:213-216 | a technician never has more tasks than there are |
| PredefinedReports.WorkloadRowOf | django_backend/reports/predefined_reports.py:209-230 | the open total is at least the In Progress, Awaiting Parts and Pending counts together |
| PredefinedReports.OpenSplits | django_backend/reports/predefined_reports.py:213-216 | the open tasks include those three groups |
| PredefinedReports.GenerateTechnicianWorkloadReport | django_backend/reports/predefined_reports.py:207-236 | rows of active technicians sorted by open tasks, most first; the technician count is the number of rows and the assigned total their sum |
| PredefinedReports.OpenAssignedToAdd | django_backend/reports/predefined_reports.py:213 | one more technician adds their open tasks |
| PredefinedReports.OpenAssignedToNone | django_backend/reports/predefined_reports.py:213 | no technicians hold no tasks |
| PredefinedReports.WorkloadTotalCountsEachTaskOnce | django_backend/reports/predefined_reports.py:213-235 | with distinct technicians the assigned total counts each open task of an active technician once |
| PredefinedReports.ActiveIdsFrom | django_backend/reports/predefined_reports.py:209-212 | an id no user has is not an active technician's |
| PredefinedReports.RowTasksPermutation | django_backend/reports/predefined_reports.py:220-235 | reordering the rows does not change the total |
| PredefinedReports.RowTasksRemove | django_backend/reports/predefined_reports.py:235 | taking one row out lowers the total by its tasks |
| PredefinedReports.WorkloadTotal | django_backend/reports/predefined_reports.py:207-236 | after sorting, the assigned total still counts each open task of an active technician once |
| PredefinedReports.WindowCount | django_backend/reports/predefined_reports.py:136-138 | corrected (see Findings): a count of the technician's tasks created within the window never exceeds the number of tasks |
| PredefinedReports.WindowCountIsCount | django_backend/reports/predefined_reports.py:136-138 | corrected (see Findings): the count is the number of the technician's tasks created in the window, of the given status if one is given |
| PredefinedReports.WindowCountOfStatus | django_backend/reports/predefined_reports.py:136-138 | a technician's counted tasks of one status never outnumber all of their counted tasks |
| PredefinedReports.Rating | django_backend/reports/predefined_reports.py:159 | the rating is at most 5 and reaches 5 exactly at 50% efficiency |
| PredefinedReports.AverageHours | django_backend/reports/predefined_reports.py:140-149 | the mean completion time in hours: 0 with no completed task, otherwise it times the number of tasks is 24 times their total days |
| PredefinedReports.Efficiency | django_backend/reports/predefined_reports.py:148 | completed as a percentage of the total: efficiency × total = completed × 100, and 0 when there are no tasks |
| PredefinedReports.PerformanceRowOf | django_backend/reports/predefined_reports.py:136-159 | completed never exceeds total; the efficiency is `Efficiency` of completed and total, and the rating `Rating` of the efficiency |
| PredefinedReports.PerformanceRows | django_backend/reports/predefined_reports.py:132-144 | corrected (see Findings): every row lists a technician who completed a task |
| PredefinedReports.PerformanceRowsIsFilter | django_backend/reports/predefined_reports.py:132-144 | corrected (see Findings): the rows are those of the active technicians who completed a task created in the window, one each, in table order |
| PredefinedReports.PerformanceListsWindowWork | django_backend/reports/predefined_reports.py:132-144 | corrected (see Findings): every active technician who completed a task created in the window has a row |
| PredefinedReports.PerformanceRowAsWritten | django_backend/reports/predefined_reports.py:130-143 | as written, the date filter tests the technician's own creation day: inside the window the row counts all of their tasks, outside it counts none |
| PredefinedReports.PerformanceRowsAsWritten | django_backend/reports/predefined_reports.py:132-144 | as written, every listed technician shows a completed task |
| PredefinedReports.PerformanceAsWrittenSelectsJoiners | django_backend/reports/predefined_reports.py:130-144 | as written, the report is the all-time report of the technicians who joined inside the window |
| PredefinedReports.EarlierTechnicianOmitted | django_backend/reports/predefined_reports.py:130-144 | an active technician who joined before the window and completed a task created in it is left out as written, and listed when the window is on the tasks |
| PredefinedReports.GenerateTechnicianPerformanceReport | django_backend/reports/predefined_reports.py:128-166 | the rows are `PerformanceRowsAsWritten` over the preset's window, with efficiency, revenue, average completion hours and rating; the technician count is their number and the range is echoed |
| PredefinedReports.PerformanceBounds | django_backend/reports/predefined_reports.py:148-159 | every listed efficiency is in (0, 100] and every rating in (3, 5], 5 exactly from 50% |
| PredefinedReports.PerformanceBoundsAsWritten | django_backend/reports/predefined_reports.py:148-159 | the same bounds hold of every row of the report as written |
| PredefinedReports.EfficiencyBounds | django_backend/reports/predefined_reports.py:148 | a positive share of at most all is in (0, 100] |
| PredefinedReports.PerformanceRowShape | django_backend/reports/predefined_reports.py:146-159 | every row's completed count is at most its total, its efficiency is `Efficiency` of them and its rating `Rating` of that |
| PredefinedReports.MinOf | django_backend/reports/predefined_reports.py:200 | the least value, and present |
| PredefinedReports.MaxOf | django_backend/reports/predefined_reports.py:201 | the greatest value, and present |
| PredefinedReports.Summarise | django_backend/reports/predefined_reports.py:182-204 | count, least, greatest and mean of the turnaround days, with least ≤ mean ≤ greatest |
| PredefinedReports.GenerateTurnaroundTimeReport | django_backend/reports/predefined_reports.py:169-204 | the error result exactly when no Completed task has both dates, otherwise their summary |
| PredefinedReports.AverageBetween | django_backend/reports/predefined_reports.py:194 | the mean of values in a range is in that range |
| PredefinedReports.SumBetween | django_backend/reports/predefined_reports.py:194 | a sum of values between two bounds is between the bounds times the count |
| DateRanges.PresetDays | django_backend/reports/predefined_reports.py:281-290 | the five named ranges, and only they, map to 7, 30, 90, 180 and 365 days |
| DateRanges.PredefinedWindow | django_backend/reports/predefined_reports.py:277-296 | the window starts the preset's days before today, 30 days for any other value, and has no end |
| DateRanges.ServicesWindow | django_backend/reports/services.py:43-67 | 'custom' with both dates uses them; anything else runs from the preset's start (30 days by default) to today |
| DateRanges.TaskAppWindow | django_backend/Eapp/reports/services.py:14-39 | a preset starts its days before today, 'custom' with both dates uses them, and anything else has no filter at all |
| DateRanges.PresetsAgree | django_backend/reports/predefined_reports.py:281-295 | for a preset the three date filters agree on every day up to today, and the report services exclude tomorrow |
| DateRanges.UnknownRangeDiverges | django_backend/Eapp/reports/services.py:39 | an unknown range excludes a day 31 days back in two generators and keeps it in the third |
| DateRanges.HalfCustomDiverges | django_backend/reports/services.py:50-65 | 'custom' with one date falls back to 30 days in one generator and to no filter in the other |
| ReportServices.ReportWindow | django_backend/reports/services.py:43-67 | the preset window unless 'custom' has both dates; those fail exactly when one does not parse as a `%Y-%m-%d` date |
| ReportServices.SelectTasks | django_backend/reports/services.py:69-80 | a task is kept exactly when created in the window or, for financial and revenue reports, paid in it, without new entries |
| ReportServices.NoRepeatsSelected | django_backend/reports/services.py:77 | the selected tasks are distinct |
| ReportServices.Mentioning | django_backend/reports/services.py:131-145 | an item is kept exactly when it is one of the items and mentions the word in its category or description, ignoring case |
| ReportServices.MentioningIsFilter | django_backend/reports/services.py:131-145 | the kept items are the mentioning ones, in order |
| ReportServices.SumText | django_backend/reports/services.py:137-145 | no matching item renders as "0" |
| ReportServices.ServiceTurnaround | django_backend/reports/services.py:204-218 | none without an intake date; otherwise the days to hand-over (or today) less one workshop stay (to its return or today) |
| ReportServices.TurnaroundText | django_backend/reports/services.py:204-223 | "N/A" without an intake date; the days with " days" when Completed or Picked Up, otherwise with " days (ongoing)" |
| ReportServices.FieldValue | django_backend/reports/services.py:94-193 | `date_completed` is the hand-over date only for a Completed task that has one; the age of a task without an intake date raises; no assignee is "Unassigned" |
| ReportServices.CellOf | django_backend/reports/services.py:195-198 | a field that raises becomes the text 'Error' |
| ReportServices.RowOf | django_backend/reports/services.py:92-198 | a row has exactly the selected fields as keys, each with its cell |
| ReportServices.ErrorCellKeepsRow | django_backend/reports/services.py:181-200 | a task without an intake date still gets its row, with 'Error' as its age |
| ReportServices.DateCompletedOnlyWhenCompleted | django_backend/reports/services.py:118-122 | a completion date is shown exactly for a Completed task with a hand-over date |
| ReportServices.TurnaroundCanBeNegative | django_backend/reports/services.py:210-218 | a workshop stay longer than the visit gives a negative turnaround |
| ReportServices.ReportGenerator.constructor | django_backend/reports/services.py:11-13 | a generator starts from every task |
| ReportServices.ReportGenerator.ApplyDateFilters | django_backend/reports/services.py:43-80 | the queryset is narrowed to the selected tasks, or left alone when a custom date does not parse as a `%Y-%m-%d` date |
| ReportServices.ReportGenerator.BuildRow | django_backend/reports/services.py:92-198 | the row built field by field is `RowOf` the task |
| ReportServices.ReportGenerator.BuildRows | django_backend/reports/services.py:91-200 | given keys that all name stored tasks, the result has one row per key, and the row at each position is `RowOf` the task that key names |
| ReportServices.ReportGenerator.BuildQuerysetData | django_backend/reports/services.py:82-202 | one row per task of the queryset, in order |
| ReportServices.ReportGenerator.GenerateReport | django_backend/reports/services.py:15-41 | failure with no rows exactly when a custom date does not parse as a `%Y-%m-%d` date; otherwise the rows of the selected tasks, their count and the report type |
| TaskAppReports.AppWindow | django_backend/Eapp/reports/services.py:14-39 | a preset bounds the creation day from below, anything but 'custom' with both dates filters as the shared window, and only a custom date that does not parse as `%Y-%m-%d` fails |
| TaskAppReports.AppSelect | django_backend/Eapp/reports/services.py:96-148 | a task is kept exactly when it is in the window and passes its report type's filter |
| TaskAppReports.MissingTypeKeepsAll | django_backend/Eapp/reports/services.py:137-148 | with no report type an Awaiting Parts task is kept, but the operational filter drops it |
| TaskAppReports.TaskAttr | django_backend/Eapp/reports/services.py:119-125 | `assigned_to` is null exactly when the task has no assignee |
| TaskAppReports.UserAttr | django_backend/Eapp/reports/services.py:47 | `get_full_name` read as an attribute is the bound method, not the name |
| TaskAppReports.GetAttr | django_backend/Eapp/reports/services.py:122 | reading any attribute of null gives null |
| TaskAppReports.FollowIsChain | django_backend/Eapp/reports/services.py:119-125 | the loop that stops at the first null agrees with plain attribute chaining |
| TaskAppReports.ChainOfNull | django_backend/Eapp/reports/services.py:123-124 | following any path from null gives null |
| TaskAppReports.FollowPath | django_backend/Eapp/reports/services.py:119-125 | the segment-by-segment traversal yields `Follow` of the task |
| TaskAppReports.Turnaround | django_backend/Eapp/reports/services.py:66-69 | defined exactly when both dates are set, and then the days from intake to hand-over |
| TaskAppReports.TurnaroundAgreement | django_backend/Eapp/reports/services.py:66-69 | without a workshop stay it agrees with the other generator for handed-over tasks, and is null where the other counts to today |
| TaskAppReports.AdditiveMentioning | django_backend/Eapp/reports/services.py:81-93 | at most one amount per item of the list it is given |
| TaskAppReports.AdditiveMentioningIsFilter | django_backend/Eapp/reports/services.py:81-93 | the amounts summed are exactly those of the Additive items whose category mentions the word, ignoring case, in the items' order |
| TaskAppReports.CategoryWithinAdditive | django_backend/Eapp/reports/services.py:81-93 | with non-negative amounts the parts or labour cost lies between 0 and the Additive sum |
| TaskAppReports.PartsAndLaborBothCount | django_backend/Eapp/reports/services.py:81-93 | an Additive item categorised "parts and labor" counts in both the parts and the labour cost |
| TaskAppReports.ContainsAt | django_backend/Eapp/reports/services.py:84-91 | a word found at some position is contained |
| TaskAppReports.MappingOf | django_backend/Eapp/reports/services.py:41-64 | 'technician' maps to the path assigned_to → get_full_name, and every path is non-empty |
| TaskAppReports.ComputedValue | django_backend/Eapp/reports/services.py:57-69 | the turnaround cell is null exactly when a date is missing |
| TaskAppReports.RawValue | django_backend/Eapp/reports/services.py:116-127 | the stored value of a mapped field: a computed figure is never a method, and is null exactly for a turnaround without both dates |
| TaskAppReports.TechnicianYieldsMethod | django_backend/Eapp/reports/services.py:119-125 | as written, an assigned task's technician cell is the bound method, never a name |
| TaskAppReports.Resolve | django_backend/Eapp/reports/services.py:47 | corrected (see Findings): calling the bound method gives the user's full name; other values stay |
| TaskAppReports.FieldValue | django_backend/Eapp/reports/services.py:116-125 | corrected (see Findings): with a trailing method called no cell holds a method, and a stored value that is not a method is kept |
| TaskAppReports.TechnicianYieldsName | django_backend/Eapp/reports/services.py:119-125 | corrected (see Findings): with the method called, the cell is the technician's full name |
| TaskAppReports.UnassignedTechnicianIsNull | django_backend/Eapp/reports/services.py:120-124 | an unassigned task's technician cell is null |
| TaskAppReports.RowOf | django_backend/Eapp/reports/services.py:111-127 | as written, a row holds exactly the selected fields that have a mapping, each with its `RawValue`, a trailing method left uncalled |
| TaskAppReports.RowTechnicianIsMethod | django_backend/Eapp/reports/services.py:119-125 | a row that selects the technician of an assigned task holds the bound method, not the name |
| TaskAppReports.BuildRow | django_backend/Eapp/reports/services.py:111-128 | the loop builds `RowOf` the task, storing each value as it is read |
| TaskAppReports.TasksOf | django_backend/Eapp/reports/services.py:110 | the selected tasks, one per key in order |
| TaskAppReports.StatusCountPositive | django_backend/Eapp/reports/services.py:163-164 | a status is counted exactly when some task has it |
| TaskAppReports.StatusDistribution | django_backend/Eapp/reports/services.py:162-164 | the distribution lists exactly the present statuses with their counts |
| TaskAppReports.Estimates | django_backend/Eapp/reports/services.py:167-171 | empty exactly when no task has an estimate |
| TaskAppReports.FinancialOf | django_backend/Eapp/reports/services.py:166-172 | the task count is all tasks; revenue and average are null exactly when no task has an estimate, otherwise their sum and mean |
| TaskAppReports.SummaryOf | django_backend/Eapp/reports/services.py:159-187 | each part of the summary is present exactly when its field is selected (turnaround also needs a completed task with both dates) |
| TaskAppReports.GenerateSummary | django_backend/Eapp/reports/services.py:159-187 | computes `SummaryOf` |
| TaskAppReports.SummaryTurnaroundBounds | django_backend/Eapp/reports/services.py:182-185 | the mean lies between the least and greatest turnaround |
| TaskAppReports.GenerateReport | django_backend/Eapp/reports/services.py:95-134 | fails only on a custom date that does not parse as `%Y-%m-%d`; otherwise the metadata count is the number of selected tasks, one as-written `RowOf` row each, and their summary |
| TaskAppReports.BuildRows | django_backend/Eapp/reports/services.py:109-128 | one as-written `RowOf` row per selected task, in order |
| TaskAppReports.FinancialRowsHaveEstimates | django_backend/Eapp/reports/services.py:139-140 | every task in a financial report has an estimate and was created in the window |
| TaskSeeders.SeederPrefix | django_backend/Eapp/seeders.py:22-26 | the prefix is the year letter counted from 'A' for 2023, followed by the two-digit month |
| TaskSeeders.MaxSeqIn | django_backend/Eapp/seeders.py:29-38 | bounds the number of every ID under the prefix, and is 0 or the number of one of them |
| TaskSeeders.MaxSeqInInsert | django_backend/Eapp/seeders.py:29-38 | adding an ID raises the maximum to that ID's number exactly when it is greater |
| TaskSeeders.HighestNumber | django_backend/Eapp/seeders.py:28-38 | the loop over the existing IDs, which skips those whose split or int conversion fails, finds `MaxSeqIn` |
| TaskSeeders.GenerateUniqueTaskId | django_backend/Eapp/seeders.py:17-42 | the ID is the prefix, a dash and one more than the highest number, padded to three digits; for every year but 2003 it is not among the existing IDs and carries exactly that number |
| TaskSeeders.AboveMaximumIsNew | django_backend/Eapp/seeders.py:40-42 | an ID whose number is above the maximum is not yet in the set |
| TaskSeeders.NewIdNumber | django_backend/Eapp/seeders.py:33-42 | splitting the generated ID at '-' gives back its number |
| TaskSeeders.NextIdAdvances | django_backend/Eapp/seeders.py:337-338 | once the new ID is added, the maximum under the prefix is one higher |
| TaskSeeders.SeedMonthIds | django_backend/Eapp/seeders.py:320-338 | IDs generated one after another, each added to the set, are pairwise distinct and never collide with the IDs that existed before |
| TaskSeeders.Year2003Repeats | django_backend/Eapp/seeders.py:23-33 | for 2003 the year letter is '-', so the split reads the month and numbering restarts |
| TaskSeeders.Kinds | django_backend/Eapp/seeders.py:44-196 | the activity kinds of a timeline, one per activity |
| TaskSeeders.ProgressNotes | django_backend/Eapp/seeders.py:91-99 | an in-progress task gets two notes, in order, after its diagnosis |
| TaskSeeders.StatusSteps | django_backend/Eapp/seeders.py:72-178 | each status adds its own activity kinds in increasing time order, and a picked-up task's pickup activity comes 24 to 72 hours after Ready and names the customer and payment status |
| TaskSeeders.IntakePart | django_backend/Eapp/seeders.py:52-70 | the intake comes first, at creation time; a device note follows ten minutes later only when the task has device notes |
| TaskSeeders.ContactPart | django_backend/Eapp/seeders.py:180-191 | the optional customer contact comes after every other activity |
| TaskSeeders.CreateTaskActivities | django_backend/Eapp/seeders.py:44-196 | the timeline starts with the intake at creation time, is strictly increasing in time, and has exactly the kinds its status and draws call for; a picked-up task ends with the pickup activity, or with the contact after it |
| TaskSeeders.PartialPayment | django_backend/Eapp/seeders.py:375-432 | for totals of at least 4 dollars, a partial payment is strictly between nothing and the whole total |
| TaskSeeders.SeededStatusConsistent | django_backend/Eapp/seeders.py:356-380 | the seeded paid amount lies between 0 and the total, and classifies back to the seeded payment status |
| TaskSeeders.SeedTask | django_backend/Eapp/seeders.py:382-409 | the row's estimate and total are the drawn cost; it stores the paid amount for the drawn status, the drawn location's name or 'Main Workshop' when none was drawn, and an intake date; the workshop location is set only by its draw and then is the same drawn location; it is a debt exactly when picked up without being fully paid |
| TaskSeeders.SeededDebtIsOwed | django_backend/Eapp/seeders.py:373-404 | a seeded debt always has money outstanding |
| Customers.HasDebtOnlyOwnTasks | django_backend/customers/serializers.py:20-21 | the debt flag of a customer changes only with that customer's own tasks |
| Customers.PhonesOf | django_backend/customers/serializers.py:38 | exactly the ids of the customer's phones |
| Customers.Matching | django_backend/customers/serializers.py:52 | exactly the ids of the customer's phones holding the number, which `get_or_create` looks up |
| Customers.Step | django_backend/customers/serializers.py:41-52 | one entry as written: it only claims phones, keeps every phone and never reuses an id |
| Customers.Run | django_backend/customers/serializers.py:41-52 | the entries in order: phones are only kept or added, and the unclaimed set only shrinks |
| Customers.Finish | django_backend/customers/serializers.py:54-56 | exactly the unclaimed phones are deleted |
| Customers.FirstNumber | django_backend/customers/serializers.py:45-48 | the number of the first entry naming the phone, which wins because the phone is popped |
| Customers.ExistingPhonesAfterUpdate | django_backend/customers/serializers.py:37-56 | as written, an existing phone survives exactly when some entry names it by id, and then carries that first entry's number |
| Customers.GetOrCreateNoDuplicate | django_backend/customers/serializers.py:50-52 | an entry with no id whose number the customer already holds adds nothing |
| Customers.ResentNumberDeleted | django_backend/customers/serializers.py:50-56 | as written, re-sending a customer's only number without its id deletes it |
| Customers.StepKeeping | django_backend/customers/serializers.py:41-52 | one entry with `get_or_create` also claiming the phones it finds; phones are only kept or added |
| Customers.RunKeeping | django_backend/customers/serializers.py:41-52 | the corrected loop: phones are only kept or added, and the unclaimed set only shrinks |
| Customers.StepKeepingKeeps | django_backend/customers/serializers.py:41-52 | a number once claimed stays claimed through any later entry |
| Customers.StepKeepingClaims | django_backend/customers/serializers.py:50-52 | an entry with no id leaves a claimed phone holding its number |
| Customers.KeepingKeepsResent | django_backend/customers/serializers.py:37-56 | in the corrected update, every number sent without an id is held by one of the customer's phones afterwards |
| Customers.CustomerStore.constructor | django_backend/customers/serializers.py:12-18 | the store starts empty |
| Customers.CustomerStore.Create | django_backend/customers/serializers.py:23-28 | adds a new customer with the given fields (type "Normal" when not given), then one new phone per number, in order, and leaves every existing phone as it was |
| Customers.CustomerStore.Update | django_backend/customers/serializers.py:30-58 | each field takes the new value when present and keeps the old one otherwise; the phone table becomes the result of the corrected reconciliation |
| UserSerializers.CheckCharField | django_backend/users/serializers.py:49-59 | a required char field is accepted exactly when present and, once stripped, non-blank and at least the minimum length; a missing key is reported as required, and every error names its field |
| UserSerializers.Errors | django_backend/users/serializers.py:48-51 | no errors exactly when every field is valid, and exactly the field errors of the failing fields |
| UserSerializers.ValidateChange | django_backend/users/serializers.py:48-56 | succeeds exactly when every field is valid and the new and confirmed passwords agree, returning the stripped data; field errors come first and are never empty; differing passwords are refused only after the fields pass |
| UserSerializers.ChangeFieldsMeaning | django_backend/users/serializers.py:49-51 | the three field checks pass exactly when the current password is non-blank and both new passwords have at least eight characters |
| UserSerializers.MissingNewPasswordRequired | django_backend/users/serializers.py:50 | a request without a new password fails with that field reported as required |
| UserSerializers.ValidateRole | django_backend/users/serializers.py:66-69 | a role is accepted unchanged exactly when it is one of the four role choices |
| UserSerializers.ValidateRegistration | django_backend/users/serializers.py:59-69 | registration data passes exactly when the password has at least eight characters and the role is a valid choice |
| UserSerializers.PopPassword | django_backend/users/serializers.py:77-78 | popping the password and putting it back gives the registration data again |
| UserSerializers.PopRestore | django_backend/users/serializers.py:77-78 | putting the password back and popping it again gives the same fields and password |
| UserSerializers.Create | django_backend/users/serializers.py:71-81 | refused exactly when a requester lacks add-user permission or the email is empty; otherwise an active user that is neither staff nor superuser, with the given names, role and password, created on the given day |
| UserSerializers.CreateNeedsManager | django_backend/users/serializers.py:73-75 | only a manager or a superuser creates users |
| UserSerializers.CreatedRoleValid | django_backend/users/serializers.py:66-81 | a user created through registration holds a valid role |
| UserSerializers.FullNameSplits | django_backend/users/serializers.py:7 | the full name is the first name, a space and the last name |
| Notifications.UnreadIn | lib/notification-context.tsx:65 | at most the list's length, and 0 exactly when every notification is read |
| Notifications.UnreadInIsCount | lib/notification-context.tsx:65 | the unread count is the number of notifications not marked read |
| Notifications.Publish | lib/notification-context.tsx:67-73 | the new notification keeps the caller's fields, is unread, and takes the clock's milliseconds as its id and time |
| Notifications.MarkedRead | lib/notification-context.tsx:77-79 | the same length; an entry becomes read when its id matches and keeps its read flag otherwise; every other field is unchanged |
| Notifications.AllRead | lib/notification-context.tsx:81-83 | every entry is read with its other fields unchanged, and nothing is left unread |
| Notifications.Without | lib/notification-context.tsx:85-87 | exactly the entries with another id remain, and the list is unchanged in length exactly when no entry has the id |
| Notifications.WithoutIsFilter | lib/notification-context.tsx:85-87 | removal keeps exactly the entries with another id, in their order |
| Notifications.MarkedReadIdempotent | lib/notification-context.tsx:77-79 | marking an id read twice is the same as marking it once |
| Notifications.MarkedReadUnread | lib/notification-context.tsx:77-79 | marking read never raises the unread count, and an id that no entry has changes nothing |
| Notifications.WithoutMarkedRead | lib/notification-context.tsx:77-87 | removing one id and marking any id read give the same list in either order |
| Notifications.WithoutUnread | lib/notification-context.tsx:85-87 | removal never raises the unread count |
| Notifications.Initial | lib/notification-context.tsx:30-63 | the provider starts with three notifications, two of them unread |
| Notifications.NotificationCenter.constructor | lib/notification-context.tsx:30-63 | the initial list |
| Notifications.NotificationCenter.Add | lib/notification-context.tsx:67-75 | the new notification goes in front of the others, and the unread count rises by one |
| Notifications.NotificationCenter.MarkAsRead | lib/notification-context.tsx:77-79 | the list becomes `MarkedRead` of the old one, and the unread count does not rise |
| Notifications.NotificationCenter.MarkAllAsRead | lib/notification-context.tsx:81-83 | the list becomes `AllRead` of the old one: the same length, with nothing unread |
| Notifications.NotificationCenter.Remove | lib/notification-context.tsx:85-87 | the list becomes `Without` of the old one, and the unread count does not rise |
| NewTaskForm.DigitsOf | components/tasks/new-task-form.tsx:125 | only digits and never longer than the input; a string of digits is kept unchanged |
| NewTaskForm.DigitsOfAppend | components/tasks/new-task-form.tsx:125 | stripping non-digits distributes over concatenation |
| NewTaskForm.FormatPhone | components/tasks/new-task-form.tsx:123-135 | the formatted value carries exactly the first ten digits of the input, in order, and fits the 14-character field |
| NewTaskForm.LayoutDigits | components/tasks/new-task-form.tsx:126-134 | each layout branch keeps the first ten digits and at most 14 characters |
| NewTaskForm.LayoutFirstTen | components/tasks/new-task-form.tsx:129 | digits after the tenth do not change the layout |
| NewTaskForm.FormatPhoneIdempotent | components/tasks/new-task-form.tsx:137-140 | formatting an already formatted number changes nothing, so retyping the field is stable |
| NewTaskForm.PhoneAsWrittenNeverMatches | components/tasks/new-task-form.tsx:83 | as written, `$$` is two end anchors, so no string matches the phone pattern |
| NewTaskForm.MatchesIntended | components/tasks/new-task-form.tsx:83-85 | a string laid out as "(ddd) ddd-dddd" matches the pattern the error message describes |
| NewTaskForm.LayoutComplete | components/tasks/new-task-form.tsx:128-129 | with ten digits the layout is exactly "(ddd) ddd-dddd" over those digits |
| NewTaskForm.FormattedPhoneMatchesIntended | components/tasks/new-task-form.tsx:83-135 | any input with at least ten digits formats into a match of the intended pattern |
| NewTaskForm.FormData.Set | components/tasks/new-task-form.tsx:142-145 | the field takes the value and every other field is kept |
| NewTaskForm.FormErrors.Clear | components/tasks/new-task-form.tsx:147-152 | the field's error is removed and every other error is kept |
| NewTaskForm.ErrorsOf | components/tasks/new-task-form.tsx:71-121 | each field is in error exactly when its rule fails, with the message of the first failing rule; make and model are never in error; no errors exactly when every rule holds |
| NewTaskForm.Flag | components/tasks/new-task-form.tsx:75-117 | a rule's message is recorded exactly when the rule fails |
| NewTaskForm.AsWrittenRejectsEveryForm | components/tasks/new-task-form.tsx:71-121 | as written, every form fails validation on its phone number |
| NewTaskForm.IntendedAcceptsFormattedPhone | components/tasks/new-task-form.tsx:80-140 | with the intended pattern, a phone typed with at least ten digits and passed through the formatter raises no phone error |
| NewTaskForm.RecordErrors | components/tasks/new-task-form.tsx:71-119 | the rule-by-rule recording builds `ErrorsOf` the checks |
| NewTaskForm.FormState.constructor | components/tasks/new-task-form.tsx:58-69 | every field starts empty, the location at front-desk intake, with no errors |
| NewTaskForm.FormState.ValidateForm | components/tasks/new-task-form.tsx:71-121 | the errors are replaced by `ErrorsOf` the current form and the form is unchanged; the result is true exactly when there are no errors |
| NewTaskForm.FormState.HandleInputChange | components/tasks/new-task-form.tsx:137-153 | the field takes the value, formatted first for the phone number, and only that field's error is cleared |
| CustomReportBuilder.Toggle | components/reports/custom-report-builder.tsx:257-259 | the id is selected afterwards exactly when it was not before; an unselected id is appended at the end and a selected one removed by `Without`, which keeps the other ids in order; every other id keeps its state, and a list without repeats stays without them |
| CustomReportBuilder.Without | components/reports/custom-report-builder.tsx:258 | exactly the other ids remain; a list without the id is unchanged, and one without repeats stays without them |
| CustomReportBuilder.WithoutIsFilter | components/reports/custom-report-builder.tsx:258 | deselecting keeps exactly the other ids, in their order |
| CustomReportBuilder.ToggleTwice | components/reports/custom-report-builder.tsx:257-259 | toggling twice gives back the same set of ids, and the same list when the id was not selected |
| CustomReportBuilder.WithoutAppend | components/reports/custom-report-builder.tsx:258 | the filter distributes over concatenation |
| CustomReportBuilder.ErrorsOf | components/reports/custom-report-builder.tsx:261-290 | each key is in error exactly when its rule fails; for a custom range a start after the end replaces the start error; other ranges record no date errors |
| CustomReportBuilder.FormValidIffNoErrors | components/reports/custom-report-builder.tsx:261-293 | the generate button is enabled exactly when validation would record no error |
| CustomReportBuilder.SameDayRangeValid | components/reports/custom-report-builder.tsx:287 | a custom range that starts and ends on the same day raises no date error |
| CustomReportBuilder.Payload | components/reports/custom-report-builder.tsx:305-317 | the trimmed name, the type, fields and range, and the custom dates exactly when the range is custom |
| CustomReportBuilder.RecordErrors | components/reports/custom-report-builder.tsx:261-291 | the rule-by-rule recording builds `ErrorsOf` the form |
| CustomReportBuilder.Builder.constructor | components/reports/custom-report-builder.tsx:247-254 | empty name, type and fields, the last 30 days range, no custom dates and no errors |
| CustomReportBuilder.Builder.HandleFieldToggle | components/reports/custom-report-builder.tsx:257-259 | the selection becomes `Toggle` of the old one, and nothing else changes |
| CustomReportBuilder.Builder.ValidateForm | components/reports/custom-report-builder.tsx:261-294 | the errors become `ErrorsOf` the unchanged form, and the result is true exactly when the form is valid |
| CustomReportBuilder.Builder.HandleDateRangeChange | components/reports/custom-report-builder.tsx:368-380 | the range takes the value; leaving custom empties both dates and sets their errors to the empty string, while choosing custom changes nothing else |
| PaymentStatusView.Options | components/tasks/payment-status-view.tsx:14-72 | a fully paid task offers only Fully Paid and Refunded; a partly paid one also offers Partially Paid; any other status offers all four; the current status is always offered, with no repeats |
| PaymentStatusView.UnpaidOnlyFromUnpaidOrRefunded | components/tasks/payment-status-view.tsx:64-72 | Unpaid is offered exactly when the task is unpaid or refunded |
| PaymentStatusView.Payload | components/tasks/payment-status-view.tsx:35-40 | the chosen status, with the next payment date sent exactly for a partial payment |
| PaymentStatusView.PaymentPanel.constructor | components/tasks/payment-status-view.tsx:22-26 | the panel starts closed with no error, holding the task's status and next payment date |
| PaymentStatusView.PaymentPanel.StartEditing | components/tasks/payment-status-view.tsx:82-92 | editing opens only for an editor; nothing else changes |
| PaymentStatusView.PaymentPanel.Choose | components/tasks/payment-status-view.tsx:107-119 | the select sets the status to one of the allowed options and changes nothing else |
| PaymentStatusView.PaymentPanel.Cancel | components/tasks/payment-status-view.tsx:57-62 | both fields go back to the task's values, editing closes and the error clears |
| PaymentStatusView.PaymentPanel.Save | components/tasks/payment-status-view.tsx:29-55 | sends `Payload` of the chosen values; on success the returned task reloads both fields, editing closes and the error clears; on failure the state stays and the server's message, or the generic one, is shown |
| PaymentStatusView.ErrorText | components/tasks/payment-status-view.tsx:53 | the response's message when it is non-empty, the generic message when it is missing or empty; never empty |
| ReturnTaskDialog.Stored | components/tasks/return-task-dialog.tsx:53-60 | the stored cost item keeps the request's task, amount and cost type |
| ReturnTaskDialog.RenegotiationAsWritten | components/tasks/return-task-dialog.tsx:51-60 | as written, the amount is the signed difference between the new estimate and the total (an empty field reads as 0); the item is Additive exactly when the difference is positive |
| ReturnTaskDialog.DownwardRenegotiationRaisesTotal | components/tasks/return-task-dialog.tsx:52-58 | as written, a lower estimate stores a negative Subtractive amount, and the total cost rises by the amount it should have fallen by |
| ReturnTaskDialog.Renegotiation | components/tasks/return-task-dialog.tsx:51-60 | the corrected item carries the size of the difference and its sign as the cost type |
| ReturnTaskDialog.RenegotiationMovesTotal | components/tasks/return-task-dialog.tsx:51-60 | the corrected item moves the total cost by exactly the difference; when the items agree with the task's total, the total becomes the new estimate |
| ReturnTaskDialog.SubmissionOf | components/tasks/return-task-dialog.tsx:50-77 | a cost item exactly when renegotiating, and then the as-written item carrying the signed difference; a note exactly when a description is given; an update that sets the task In Progress and keeps each field left empty (an estimate of 0 included) |
| ReturnTaskDialog.SubmittedItemRaisesTotal | components/tasks/return-task-dialog.tsx:51-60 | the item the dialog sends raises the total cost by the size of the difference, whether the new estimate is above or below the total |
| ReturnTaskDialog.ZeroEstimateKeepsOld | components/tasks/return-task-dialog.tsx:52-71 | a new estimate of 0 keeps the old estimate, yet the dialog sends a Subtractive item of minus the whole total, so a total the items agree with doubles |
| ReturnTaskDialog.Dialog.constructor | components/tasks/return-task-dialog.tsx:35-40 | every input starts empty, with renegotiation off |
| ReturnTaskDialog.Dialog.Submit | components/tasks/return-task-dialog.tsx:50-77 | sends `SubmissionOf` the inputs and closes the dialog, leaving the inputs unchanged |
| TaskDetailsPage.PermissionsOf | components/tasks/task-details-page.tsx:91-101 | each permission holds exactly for its listed roles, with "Administrator" allowed everything and no signed-in user allowed nothing |
| TaskDetailsPage.BackendRolesSplitDuties | components/tasks/task-details-page.tsx:91-101 | for the four roles the backend defines, nobody may both complete a repair and hand the device over, only a manager may edit financials, and an accountant may do nothing |
| TaskDetailsPage.PaidIsNotABackendLabel | components/tasks/task-details-page.tsx:62 | "Paid" is the label of no backend payment status |
| TaskDetailsPage.DerivedLabelAsWritten | components/tasks/task-details-page.tsx:136-141 | as written, "Paid" exactly when the payments reach a total that parses, and "Partially Paid" otherwise |
| TaskDetailsPage.SettledLabelAsWrittenUnknown | components/tasks/task-details-page.tsx:139-143 | as written, a settled task is given a label that names no payment status the backend accepts |
| TaskDetailsPage.DerivedStatus | components/tasks/task-details-page.tsx:136-141 | corrected: Fully Paid exactly when the payments reach the total, and Partially Paid otherwise |
| TaskDetailsPage.DerivedStatusAgrees | components/tasks/task-details-page.tsx:136-141 | the corrected derivation differs from the written one only in the settled label |
| TaskDetailsPage.DerivedStatusMonotone | components/tasks/task-details-page.tsx:136-141 | paying more never takes a settled task back to partially paid |
| TaskDetailsPage.Paid | components/tasks/task-details-page.tsx:136 | the sum of non-negative payments is non-negative |
| TaskDetailsPage.Page.constructor | components/tasks/task-details-page.tsx:72-75 | no task loaded, with empty note and payment inputs |
| TaskDetailsPage.Page.FieldUpdate | components/tasks/task-details-page.tsx:103-115 | with a task loaded, the field changes on the page and only that field is sent, whatever the server answers; with none, nothing happens |
| TaskDetailsPage.Page.AddNote | components/tasks/task-details-page.tsx:117-127 | a note is sent exactly when it is not blank and a task is loaded; a stored note is appended to the activities and the input is cleared; a failed request changes nothing |
| TaskDetailsPage.Page.AddPayment | components/tasks/task-details-page.tsx:129-152 | with both inputs set and the payment stored, the payment is appended and the label `DerivedLabelAsWritten` of all the payments is shown and sent, "Paid" exactly when the corrected status would be Fully Paid; only a successful status update clears the inputs; otherwise nothing changes |
| PdfGenerator.Extend | components/reports/pdf-generator.ts:906 | a row key is the prefix, a dot and the key, or just the key under an empty prefix |
| PdfGenerator.FlattenFrom | components/reports/pdf-generator.ts:904-913 | one row per leaf that is not an object, and under a non-empty prefix every row key starts with the prefix and a dot |
| PdfGenerator.Rows | components/reports/pdf-generator.ts:915 | the generic table has one row per leaf of the report object |
| PdfGenerator.FlatObjectRows | components/reports/pdf-generator.ts:904-913 | an object without nested objects gives one row per entry, in key order, holding the prefixed key and the entry's text |
| PdfGenerator.EmptyNestedObjectNoRows | components/reports/pdf-generator.ts:915-930 | a report whose only entry is an empty object gives no rows, so the PDF says there is no data |
| PdfGenerator.StatusOf | components/reports/pdf-generator.ts:541-543 | Full from 90 per cent, Busy from 70, and Available otherwise, also when there is no utilization |
| PdfGenerator.LocationCounts | components/reports/pdf-generator.ts:542-559 | the full count equals the rows shown Full, the available count plus the unmeasured locations equals the rows shown Available, and every location is shown exactly once |
| PdfGenerator.TurnaroundBucketsPartition | components/reports/pdf-generator.ts:487-490 | every turnaround falls in exactly one of the four buckets, so the bucket counts add up to the number of tasks |
| PdfGenerator.CriticalWithinOverdue | components/reports/pdf-generator.ts:154-200 | every task overdue by more than a week is also counted as overdue, so there are never more of them |
| PdfGenerator.UrlAsWritten | components/reports/pdf-generator.ts:969-974 | as written, the date-range query is added exactly for the listed ids |
| PdfGenerator.PerformanceFetchedWithoutRange | components/reports/pdf-generator.ts:953-974 | as written, the list names an endpoint path instead of a report id, so the performance report is fetched without its date range |
| PdfGenerator.NoEndpointUnderPath | components/reports/pdf-generator.ts:952-961 | no report id maps to an endpoint under the name "technician-performance" |
| PdfGenerator.PerformanceEndpoint | components/reports/pdf-generator.ts:959 | the performance report's endpoint is the technician-performance path |
| PdfGenerator.Url | components/reports/pdf-generator.ts:969-974 | corrected: the date-range query is added exactly for the three date-ranged report ids |
| PdfGenerator.DateRangedReportsFetchedWithRange | components/reports/pdf-generator.ts:952-974 | every date-ranged report has an endpoint and is fetched with the date range |
| PdfGenerator.SourceOf | components/reports/pdf-generator.ts:946-996 | the report on display when it is the one asked for; otherwise a fetch from the id's endpoint with the query added as written (`UrlAsWritten`), or nothing for an id that has none |
| PdfGenerator.LayoutOf | components/reports/pdf-generator.ts:1034-1060 | a known report type gets its own layout and any other type gets the generic one |
| Customers.RunTracksExisting | django_backend/customers/serializers.py:37-49 | as written, an existing phone of the customer stays in the table; it remains unclaimed exactly when no entry names it, and takes the first naming entry's number when one does |
| Customers.RunFresh | django_backend/customers/serializers.py:41-52 | the loop never reuses a phone id, and only the customer's own phones are ever unclaimed |
| Customers.RunKeepingFresh | django_backend/customers/serializers.py:41-52 | the corrected loop never reuses a phone id, and only phones in the table are unclaimed |
| Customers.KeptAfter | django_backend/customers/serializers.py:50-52 | after the corrected loop, every number sent without an id is held by a claimed phone of the customer |
| FinancialModels.PaymentAmounts | django_backend/financials/signals.py:12 | no more amounts than payments; every payment of the task contributes its amount, and every amount is that of some payment of the task |
| FinancialModels.PaymentAmountsIsFilter | django_backend/financials/signals.py:12 | the amounts are those of the task's payments, one each, in table order |
| FinancialViews.Revenue | django_backend/financials/views.py:258-264 | no more amounts than payments; a payment dated that day with a positive amount contributes it, and every amount is that of such a payment |
| FinancialViews.RevenueIsFilter | django_backend/financials/views.py:258-264 | the revenue amounts are those of the positive payments of that day, in table order |
| FinancialViews.ApprovedSpending | django_backend/financials/views.py:266-275 | no more amounts than requests; an Approved request created that day contributes its amount, and every amount is that of such a request |
| FinancialViews.ApprovedSpendingIsFilter | django_backend/financials/views.py:266-275 | the spending amounts are those of the Approved requests created that day, in table order |
| RevenueOverview.Spending | django_backend/reports/views.py:40-49 | no more amounts than payments; a payment dated that day with a negative amount contributes it, and every amount is that of such a payment |
| RevenueOverview.SpendingIsFilter | django_backend/reports/views.py:40-49 | the spending amounts are those of the negative payments of that day, in table order |
| RevenueOverview.SumNonPositive | django_backend/reports/views.py:40-49 | a sum of negative amounts is not positive, and is negative when there is any |
| StatusTransitions.RoleRows | django_backend/Eapp/status_transitions.py:4-29 | the Front Desk and the Technician each read their own row of the table |
| Database.Db.constructor | django_backend/Eapp/models.py:124-217 | the database starts with the given users and locations, and with no tasks, payments, cost items, activities or expenditure requests |

## Left out

- Rendering: JSX, charts, dialogs and toasts; the jsPDF and autoTable page layout; and the HTML print window of the custom report builder. The PDF generator is modelled only in how it chooses data and layout, flattens rows and classifies.
- I/O: HTTP requests, the frontend's API clients, tokens in local storage, and the `send_update` email (django_backend/Eapp/views.py:286-317). Server answers are parameters of the frontend methods.
- Persistence: querysets, `select_related` and transactions. Tables are maps and sequences, and every operation runs sequentially, since the source takes no locks.
- Authentication: login, JWT, profile upload and the user administration views. `has_add_user_permission` is modelled as the predicate it is.
- Timers and randomness: the notification timer and the websocket mock. The seeders' random choices are passed in as parameters, and so are the seeded note texts and contact channel.
- Decimal and floating-point rounding: percentages, averages and day-over-day changes are exact rationals or whole cents. The one-decimal rounding of report figures is not modelled.
- FinancialSeeders.SharePayment: the seeder multiplies the total by `Decimal(percentage)` built from a float, and `Decimal(0.3)` lies just below 0.3; the model uses the exact percentage, so a ½-unit tie rounds differently (125.00 at 30% gives 37 in the seeder, 38 in the model; 225.00 gives 67 against 68).
- The total-cost method: the shown django_backend/Eapp/models.py has no `calculate_total_cost`. The cost-item signal and the report `total_cost` field use the formula of migration 0006 (estimate plus Additive items minus Subtractive items).
- `_handle_customer_update` in the task update (django_backend/Eapp/views.py:147-151) and customer creation inside task `create`: the update takes the customer fields as already applied. Customer rows themselves are modelled by `Customers.CustomerStore`.
- An event-log turnaround that would exclude the intervals a device spends with the customer, and a QC rejection path: no shown source implements either, so only the date-difference turnaround of the reports is modelled.
- PredefinedReports.GenerateTaskStatusReport: rows are listed in status-list order, not sorted by descending count.
- FinancialSeeders.AssignSchedules: the month-by-month scheduled pass and the monthly revenue targets are modelled only through which month is due first; payment description texts are not modelled.
- TaskIds.GenerateTaskId: the as-written generator has no contract of its own; its behaviour is stated by `GenerateTaskIdShape`, `GenerateFromLast` and the two counterexample lemmas.
- Text.CentsToString: the money formatter has no contract of its own; `Text.CentsToStringValue` states that it formats whole dollars and two cent digits.
- FinancialViews.ListPayments: the payments table's default `-date` ordering (django_backend/financials/models.py:53) is not modelled; the listing keeps table order, and its contract states membership and multiplicity only.
- Customers.CustomerStore.Update: the phone table is reconciled by the corrected loop `RunKeeping` (see Findings); the loop as written is `Customers.Run`, stated by `ExistingPhonesAfterUpdate` and `ResentNumberDeleted`. The phone serializer makes each entry's `id` read-only, so the request data never carries ids and the path where an entry names an existing phone by id is kept in the model although the API cannot reach it.
- TaskAppReports.TaskAttr: `id` reads the task's key, its title, because tasks are keyed by title throughout this model; the integer primary key is not modelled.
- ReportServices.FieldValue: the `brand`, `device_type`, `serial_number` and `created_by` fields, and the fallback that reads any other attribute (calling it when callable, 'N/A' when missing), are not modelled; such fields give an opaque cell, because the task model here has no brand, device type, serial number or creator.
- ReportServices.ReportWindow and TaskAppReports.AppWindow: custom dates are parsed like `strptime('%Y-%m-%d')`; the source passes the raw strings to a `created_at__date__range` lookup, where Django's `parse_date` decides, and the two differ on inputs such as "2024-01- 5" (accepted by `strptime`, refused by `parse_date`).
- Customers.Step and Customers.CustomerStore.Update: `get_or_create` (django_backend/customers/serializers.py:52) raises MultipleObjectsReturned when the customer already holds the number twice, which `CustomerStore.Create` allows; the model treats such an entry as found and leaves the table unchanged, and the failed request is not modelled.
- Task `date_out`: django_backend/Eapp/models.py:186 declares it a date, while the task update stores `timezone.now()` and the report services call `.date()` on it (django_backend/Eapp/reports/services.py:68, 180 and django_backend/reports/services.py:120, 209); the model reads the column as a day number throughout, and the AttributeError that `.date()` raises on a plain date is not modelled.
- UserSerializers.ValidateRegistration: when both the password and the role are bad, the model returns the password's error alone, while the serializer reports both fields' errors together.
- TaskSeeders.SeedTask: `created_at` has `auto_now_add`, so the stored creation time is the moment of seeding, not the backdated day the model stores. The status draw passes seven weights for the eight statuses, so `random.choices` raises ValueError for every task; the per-task `try` (django_backend/Eapp/seeders.py:321, 420-422) catches it and moves on to the next task, so a run as written ends having created no task. The model takes the drawn status as a parameter.
- TaskSeeders.CreateTaskActivities: `TaskActivity.timestamp` has `auto_now_add`, so the stored activities carry the seeding time; the backdated, increasing timestamps the model states are the values the seeder passes, not the ones stored.
- FinancialSeeders.AssignSchedules: a task whose `total_cost` is null makes the comparison `task.total_cost <= 0` raise TypeError in the source; the model's totals are always present, so that crash is not modelled.
- TaskViews.ApplyRequest: the serializer's validation, which answers 400 on invalid data (`is_valid(raise_exception=True)`), is not modelled; the view uses `TaskDetailSerializer`, which is not part of this model, so the written columns follow the keys the update handlers read and the shown `TaskSerializer`, whose `fields` do not list `is_debt`, the workshop columns or `sent_out_by` that the model also writes.
- TaskDetailsPage.Page.AddPayment: whether the backend accepts the "Paid" label is a parameter (`statusSaved`); the server's rejection of an unknown choice is not modelled.

## Findings

| source | as written | input that shows it | evidently intended | confidence | as-written member | corrected member |
|---|---|---|---|---|---|---|
| django_backend/Eapp/views.py:42-47 | the month's last ID is the lexicographically greatest title under the prefix | titles "A1-999" and "A1-1000" in January 2025 give "A1-1000", which already exists | continue after the numerically greatest number | not executed | TaskIds.DuplicateAfter999 | TaskIds.NextTaskId |
| django_backend/Eapp/views.py:39-42 | the unpadded month prefix "A1" also matches October's "A10-…" titles | an October title "A10-005" makes January's next ID "A1-006" | number January's IDs only under exactly "A1-" | not executed | TaskIds.JanuaryReadsOctober | TaskIds.NextTaskIdAdvances |
| components/tasks/new-task-form.tsx:83 | `$$` in the phone pattern is two end anchors, so no string matches | "(555) 123-4567", the format the error message asks for, is refused, and so is every form | escaped parentheses: `^\(\d{3}\)\s\d{3}-\d{4}$` | not executed | NewTaskForm.AsWrittenRejectsEveryForm | NewTaskForm.IntendedAcceptsFormattedPhone |
| django_backend/customers/serializers.py:50-56 | an entry without an id that `get_or_create` finds is not taken off the deletion list | a customer whose one phone is "555", updated with the entry {phone_number: "555"}, loses that phone | the re-sent number is kept | not executed | Customers.ResentNumberDeleted | Customers.KeepingKeepsResent |
| components/tasks/return-task-dialog.tsx:52-58 | a lower estimate stores the negative difference as a Subtractive amount | total 100.00 renegotiated to 80.00 stores Subtractive −20.00, and the total becomes 120.00 | Subtractive 20.00, giving a total of 80.00 | not executed | ReturnTaskDialog.DownwardRenegotiationRaisesTotal | ReturnTaskDialog.RenegotiationMovesTotal |
| django_backend/Eapp/reports/services.py:119-125 | `getattr(user, "get_full_name")` yields the bound method, never the name | any task with an assigned technician, report field "technician" | call the method to get the technician's full name | not executed | TaskAppReports.TechnicianYieldsMethod | TaskAppReports.TechnicianYieldsName |
| components/tasks/task-details-page.tsx:139-141 | a settled task is labelled "Paid" | payments of 100.00 against a total of 100.00 send payment status "Paid", which is not a backend choice | "Fully Paid" | not executed | TaskDetailsPage.SettledLabelAsWrittenUnknown | TaskDetailsPage.DerivedStatus |
| components/reports/pdf-generator.ts:970-974 | the date-ranged list names the endpoint path "technician-performance" instead of the report id | report id "performance" is fetched without `?date_range=last_30_days` | list the id "performance" | not executed | PdfGenerator.PerformanceFetchedWithoutRange | PdfGenerator.DateRangedReportsFetchedWithRange |
| django_backend/reports/predefined_reports.py:130-143 | the `created_at` date filter sits inside `User.objects.annotate`, so it tests the technician's own creation day, not the tasks' | an active technician who joined last year and completed a task created yesterday is missing from the last-30-days report | count the technician's tasks created within the window | not executed | PredefinedReports.EarlierTechnicianOmitted | PredefinedReports.PerformanceListsWindowWork |
