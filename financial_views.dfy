/**
 * The financial endpoints: the expenditure-request state machine (Pending, then
 * Approved or Rejected), the request and payment listings, and the daily summary.
 */
module FinancialViews {
  import opened Basics
  import opened TaskModels
  import opened FinancialModels
  import opened Database
  import opened Signals
  import opened Calendar

  /** The outcome of `approve`/`reject`: the updated request, a 400, or a 404. */
  datatype ActionResult = Done(request: ExpenditureRequest) | AlreadyProcessed | NotFound

  /** The 400 text for a request that is no longer Pending. */
  const ALREADY_PROCESSED: string := "This request has already been processed."

  /** The payment an approval books: the expenditure's amount, negated, dated today. */
  function ApprovalPayment(e: ExpenditureRequest, today: int): (p: Payment)
    ensures p.task == e.task && p.amount == -e.amount && p.date == today
  {
    Payment(e.task, -e.amount, today, e.description)
  }

  /** The approved cost item an approval adds to the linked task. */
  function ApprovalCostItem(e: ExpenditureRequest, key: string): (c: CostItem)
    ensures c.task == key && c.amount == e.amount && c.costType == e.costType && c.status == Approved
  {
    CostItem(key, "Expenditure: " + e.description, e.amount, e.costType, Approved, e.category)
  }

  /** The cost items an approval adds: one when the request names a task, none otherwise. */
  function ApprovalItems(e: ExpenditureRequest): (items: seq<CostItem>)
    ensures |items| == (if e.task.Some? then 1 else 0)
  {
    if e.task.Some? then [ApprovalCostItem(e, e.task.value)] else []
  }

  /**
   * The ledger entries of an approval: the booked payment and the cost item. Run through
   * the save signals, they leave a linked task's paid amount lower by the expenditure's
   * amount and its total cost moved by the item's contribution.
   */
  method BookExpenditure(db: Db, e: ExpenditureRequest, today: int)
    modifies db
    ensures db.payments == old(db.payments) + [ApprovalPayment(e, today)]
    ensures db.costItems == old(db.costItems) + ApprovalItems(e)
    ensures db.tasks.Keys == old(db.tasks.Keys)
    ensures forall k :: k in db.tasks && Some(k) != e.task ==> db.tasks[k] == old(db.tasks[k])
    ensures db.activities == old(db.activities) && db.expenditures == old(db.expenditures)
    ensures db.users == old(db.users) && db.locations == old(db.locations)
    ensures AllConsistent(old(db.tasks), old(db.payments), old(db.costItems))
      ==> AllConsistent(db.tasks, db.payments, db.costItems)
  {
    SavePayment(db, ApprovalPayment(e, today), today);
    if e.task.Some? {
      SaveCostItem(db, ApprovalCostItem(e, e.task.value), today);
    }
  }

  /**
   * An approval's effect on a consistent linked task: the paid amount drops by the
   * expenditure's amount and the total cost moves by the new item's contribution
   * (up for Additive, down for Subtractive, unchanged for Inclusive).
   */
  lemma ApprovalLedgerEffect(payments: seq<Payment>, items: seq<CostItem>, e: ExpenditureRequest,
                             estimated: Option<int>, today: int)
    requires e.task.Some?
    ensures var key := e.task.value;
      && Sum(PaymentAmounts(payments + [ApprovalPayment(e, today)], key))
         == Sum(PaymentAmounts(payments, key)) - e.amount
      && TotalCost(estimated, ItemsOf(items + ApprovalItems(e), key))
         == TotalCost(estimated, ItemsOf(items, key)) + Contribution(ApprovalCostItem(e, key))
  {
    var key := e.task.value;
    var p := ApprovalPayment(e, today);
    assert (payments + [p])[..|payments|] == payments;
    assert PaymentAmounts(payments + [p], key) == PaymentAmounts(payments, key) + [-e.amount];
    SumAppend(PaymentAmounts(payments, key), [-e.amount]);
    SumSingle(-e.amount);
    var c := ApprovalCostItem(e, key);
    assert (items + [c])[..|items|] == items;
    assert ItemsOf(items + [c], key) == ItemsOf(items, key) + [c];
    TotalCostSnoc(estimated, ItemsOf(items, key), c);
  }

  /**
   * `approve`: only a Pending request can be approved (otherwise 400 and nothing
   * changes); it becomes Approved with the caller as approver and its ledger entries
   * are booked.
   */
  method Approve(db: Db, pk: nat, approver: User, today: int) returns (r: ActionResult)
    modifies db
    ensures pk !in old(db.expenditures) ==> r == NotFound
    ensures pk in old(db.expenditures) && old(db.expenditures[pk]).status != ApprovalPending ==>
      r == AlreadyProcessed
    ensures !r.Done? ==>
      db.expenditures == old(db.expenditures) && db.payments == old(db.payments)
      && db.costItems == old(db.costItems) && db.tasks == old(db.tasks)
    ensures r.Done? ==>
      && pk in old(db.expenditures) && old(db.expenditures[pk]).status == ApprovalPending
      && r.request == old(db.expenditures[pk]).(status := Approved, approver := Some(approver.id))
      && db.expenditures == old(db.expenditures)[pk := r.request]
      && db.payments == old(db.payments) + [ApprovalPayment(r.request, today)]
      && db.costItems == old(db.costItems) + ApprovalItems(r.request)
    ensures db.tasks.Keys == old(db.tasks.Keys)
    ensures db.activities == old(db.activities) && db.users == old(db.users) && db.locations == old(db.locations)
    ensures AllConsistent(old(db.tasks), old(db.payments), old(db.costItems))
      ==> AllConsistent(db.tasks, db.payments, db.costItems)
  {
    if pk !in db.expenditures {
      return NotFound;
    }
    var e := db.expenditures[pk];
    if e.status != ApprovalPending {
      return AlreadyProcessed;
    }
    e := e.(status := Approved, approver := Some(approver.id));
    db.expenditures := db.expenditures[pk := e];
    BookExpenditure(db, e, today);
    return Done(e);
  }

  /** `reject`: only a Pending request can be rejected; it records the caller and books nothing. */
  method Reject(db: Db, pk: nat, approver: User) returns (r: ActionResult)
    modifies db
    ensures pk !in old(db.expenditures) ==> r == NotFound
    ensures pk in old(db.expenditures) && old(db.expenditures[pk]).status != ApprovalPending ==>
      r == AlreadyProcessed
    ensures !r.Done? ==> db.expenditures == old(db.expenditures)
    ensures r.Done? ==>
      && pk in old(db.expenditures) && old(db.expenditures[pk]).status == ApprovalPending
      && r.request == old(db.expenditures[pk]).(status := Rejected, approver := Some(approver.id))
      && db.expenditures == old(db.expenditures)[pk := r.request]
    ensures db.tasks == old(db.tasks) && db.payments == old(db.payments) && db.costItems == old(db.costItems)
    ensures db.activities == old(db.activities) && db.users == old(db.users) && db.locations == old(db.locations)
  {
    if pk !in db.expenditures {
      return NotFound;
    }
    var e := db.expenditures[pk];
    if e.status != ApprovalPending {
      return AlreadyProcessed;
    }
    e := e.(status := Rejected, approver := Some(approver.id));
    db.expenditures := db.expenditures[pk := e];
    return Done(e);
  }

  /**
   * `create_and_approve`: store a new request already Approved, with the caller as both
   * requester and approver, and book its ledger entries as `approve` does. `pk` is the
   * key the database assigns to the new row.
   */
  method CreateAndApprove(db: Db, pk: nat, description: string, amount: int, task: Option<string>,
                          category: string, costType: Option<CostType>, actor: User, now: int, today: int)
    returns (e: ExpenditureRequest)
    requires pk !in db.expenditures
    modifies db
    ensures e.status == Approved && e.requester == actor.id && e.approver == Some(actor.id)
    ensures e == NewExpenditureRequest(description, amount, task, category, costType, actor.id, now)
                   .(status := Approved, approver := Some(actor.id))
    ensures db.expenditures == old(db.expenditures)[pk := e]
    ensures db.payments == old(db.payments) + [ApprovalPayment(e, today)]
    ensures db.costItems == old(db.costItems) + ApprovalItems(e)
    ensures db.tasks.Keys == old(db.tasks.Keys)
    ensures db.activities == old(db.activities) && db.users == old(db.users) && db.locations == old(db.locations)
    ensures AllConsistent(old(db.tasks), old(db.payments), old(db.costItems))
      ==> AllConsistent(db.tasks, db.payments, db.costItems)
  {
    e := NewExpenditureRequest(description, amount, task, category, costType, actor.id, now)
           .(status := Approved, approver := Some(actor.id));
    db.expenditures := db.expenditures[pk := e];
    BookExpenditure(db, e, today);
  }

  /** Approving or rejecting twice: the second call is refused and changes nothing. */
  lemma NoSecondDecision(e: ExpenditureRequest, who: User)
    ensures e.(status := Approved, approver := Some(who.id)).status != ApprovalPending
    ensures e.(status := Rejected, approver := Some(who.id)).status != ApprovalPending
  {
  }

  /** Who sees every request in the listing: staff, Managers and Admins. */
  predicate SeesAllRequests(u: User) {
    u.isStaff || u.role in {MANAGER, "Admin"}
  }

  /**
   * `ExpenditureRequestViewSet.get_queryset`: other users see only their own requests,
   * then an optional status filter applies.
   */
  function VisibleRequests(requests: map<nat, ExpenditureRequest>, u: User,
                           statusFilter: Option<ApprovalStatus>): (ids: set<nat>)
    ensures ids <= requests.Keys
    ensures forall id :: id in ids <==>
      id in requests
      && (SeesAllRequests(u) || requests[id].requester == u.id)
      && (statusFilter.None? || requests[id].status == statusFilter.value)
  {
    set id | id in requests
      && (SeesAllRequests(u) || requests[id].requester == u.id)
      && (statusFilter.None? || requests[id].status == statusFilter.value)
  }

  /** A plain Accountant never sees another user's request, whatever the filter. */
  lemma OwnRequestsOnly(requests: map<nat, ExpenditureRequest>, u: User, f: Option<ApprovalStatus>, id: nat)
    requires !SeesAllRequests(u) && id in requests && requests[id].requester != u.id
    ensures id !in VisibleRequests(requests, u, f)
  {
  }

  /** Filtering by status only ever narrows the unfiltered listing. */
  lemma StatusFilterNarrows(requests: map<nat, ExpenditureRequest>, u: User, s: ApprovalStatus)
    ensures VisibleRequests(requests, u, Some(s)) <= VisibleRequests(requests, u, None)
  {
  }

  /** Query-string truthiness: a parameter counts when present and non-empty. */
  predicate Truthy(param: Option<string>) { param.Some? && param.value != "" }

  function PaymentMatches(p: Payment, taskPayments: Option<string>, isRefunded: Option<string>): bool {
    (!Truthy(taskPayments) || p.task.Some?) && (!Truthy(isRefunded) || p.amount < 0)
  }

  /**
   * `PaymentViewSet.get_queryset`: `task_payments` keeps task payments and `is_refunded`
   * keeps negative amounts; any non-empty value switches a filter on, "false" included.
   */
  function ListPayments(payments: seq<Payment>, taskPayments: Option<string>, isRefunded: Option<string>)
    : (r: seq<Payment>)
    ensures multiset(r) <= multiset(payments)
    ensures forall i :: 0 <= i < |r| ==> PaymentMatches(r[i], taskPayments, isRefunded)
    ensures forall p :: p in payments && PaymentMatches(p, taskPayments, isRefunded) ==> p in r
    ensures !Truthy(taskPayments) && !Truthy(isRefunded) ==> r == payments
  {
    if payments == [] then []
    else
      var rest := ListPayments(payments[1..], taskPayments, isRefunded);
      assert payments == [payments[0]] + payments[1..];
      if PaymentMatches(payments[0], taskPayments, isRefunded) then [payments[0]] + rest else rest
  }

  /** `is_refunded=false` still lists refunds only: the flag is tested for presence, not value. */
  lemma RefundFlagIgnoresValue(payments: seq<Payment>)
    ensures ListPayments(payments, None, Some("false")) == ListPayments(payments, None, Some("true"))
  {
  }

  /** The daily summary, or the 400 the endpoint answers with. */
  datatype Summary =
    | BadRequest(error: string)
    | DaySummary(totalRevenue: int, totalExpenditures: int, netBalance: int, date: string)

  /** The amounts of the positive payments dated `day`, in table order. */
  function Revenue(payments: seq<Payment>, day: int): (r: seq<int>)
    ensures |r| <= |payments|
    ensures forall i :: 0 <= i < |r| ==> r[i] > 0
    ensures forall p :: p in payments && p.date == day && p.amount > 0 ==> p.amount in r
    ensures forall x :: x in r ==> exists p :: p in payments && p.date == day && p.amount == x
  {
    if payments == [] then []
    else
      var last := payments[|payments| - 1];
      Revenue(payments[..|payments| - 1], day) + (if last.date == day && last.amount > 0 then [last.amount] else [])
  }

  /** Revenue is the amounts of the positive payments dated that day, in table order, and nothing else. */
  lemma {:induction false} RevenueIsFilter(payments: seq<Payment>, day: int)
    ensures Revenue(payments, day)
      == MapSeq(Filter(payments, (p: Payment) => p.date == day && p.amount > 0), (p: Payment) => p.amount)
    decreases |payments|
  {
    if payments != [] {
      var init, last := payments[..|payments| - 1], payments[|payments| - 1];
      RevenueIsFilter(init, day);
      var kept := Filter(init, (p: Payment) => p.date == day && p.amount > 0);
      assert (kept + [last])[..|kept|] == kept;
    }
  }

  /** The amounts of the approved requests created on `day`, in table order. */
  function ApprovedSpending(requests: seq<ExpenditureRequest>, day: int): (r: seq<int>)
    ensures |r| <= |requests|
    ensures forall e :: e in requests && e.createdAt == day && e.status == Approved ==> e.amount in r
    ensures forall x :: x in r ==> exists e :: e in requests && e.createdAt == day && e.status == Approved && e.amount == x
  {
    if requests == [] then []
    else
      var last := requests[|requests| - 1];
      ApprovedSpending(requests[..|requests| - 1], day)
        + (if last.createdAt == day && last.status == Approved then [last.amount] else [])
  }

  /** The spending of a day is the amounts of the approved requests created that day, in table order, and nothing else. */
  lemma {:induction false} ApprovedSpendingIsFilter(requests: seq<ExpenditureRequest>, day: int)
    ensures ApprovedSpending(requests, day)
      == MapSeq(Filter(requests, (e: ExpenditureRequest) => e.createdAt == day && e.status == Approved), (e: ExpenditureRequest) => e.amount)
    decreases |requests|
  {
    if requests != [] {
      var init, last := requests[..|requests| - 1], requests[|requests| - 1];
      ApprovedSpendingIsFilter(init, day);
      var kept := Filter(init, (e: ExpenditureRequest) => e.createdAt == day && e.status == Approved);
      assert (kept + [last])[..|kept|] == kept;
    }
  }

  /**
   * `FinancialSummaryView.get`: the date parameter is required and must parse as
   * `%Y-%m-%d`; revenue is the positive payments dated that day, expenditure the
   * approved requests created that day, and the net balance their difference.
   */
  function FinancialSummary(payments: seq<Payment>, requests: seq<ExpenditureRequest>, date: Option<string>)
    : (s: Summary)
    ensures date.None? || date == Some("") ==> s == BadRequest("Date parameter is required")
    ensures date.Some? && date.value != "" && ParseIsoDate(date.value).None? ==>
      s == BadRequest("Invalid date format. Use YYYY-MM-DD.")
    ensures s.DaySummary? ==>
      && date.Some? && ParseIsoDate(date.value).Some?
      && s.totalRevenue == Sum(Revenue(payments, Ordinal(ParseIsoDate(date.value).value)))
      && s.totalExpenditures == Sum(ApprovedSpending(requests, Ordinal(ParseIsoDate(date.value).value)))
      && s.netBalance == s.totalRevenue - s.totalExpenditures
      && s.totalRevenue >= 0
      && s.date == IsoFormat(ParseIsoDate(date.value).value)
  {
    if date.None? || date.value == "" then BadRequest("Date parameter is required")
    else match ParseIsoDate(date.value)
      case None => BadRequest("Invalid date format. Use YYYY-MM-DD.")
      case Some(d) =>
        var day := Ordinal(d);
        var revenue := Sum(Revenue(payments, day));
        var spent := Sum(ApprovedSpending(requests, day));
        SumNonNegative(Revenue(payments, day));
        DaySummary(revenue, spent, revenue - spent, IsoFormat(d))
  }

  /** A refund or an expenditure payment never lowers the day's revenue figure. */
  lemma {:induction false} NegativePaymentsIgnored(payments: seq<Payment>, p: Payment, day: int)
    requires p.amount <= 0
    ensures Revenue(payments + [p], day) == Revenue(payments, day)
  {
    assert (payments + [p])[..|payments|] == payments;
  }

  /** The reported date is the canonical form of the requested one: "2024-3-5" reports "2024-03-05". */
  lemma SummaryDateIsCanonical(payments: seq<Payment>, requests: seq<ExpenditureRequest>, date: string)
    requires FinancialSummary(payments, requests, Some(date)).DaySummary?
    ensures var s := FinancialSummary(payments, requests, Some(date)).date;
      ParseIsoDate(s) == ParseIsoDate(date) && |s| == 10
  {
    ParseNormalises(date);
  }
}
