/**
 * Ledger rows: payments (signed; refunds and expenditures are negative), cost
 * breakdown items and expenditure requests, with their enumerations and defaults,
 * and the total-cost formula built on them. Amounts are integer cents, which is
 * exact for the two-decimal fixed-point columns.
 */
module FinancialModels {
  import opened Basics
  import opened TaskModels

  datatype CostType = Additive | Subtractive | Inclusive {
    function Label(): string {
      match this
      case Additive => "Additive"
      case Subtractive => "Subtractive"
      case Inclusive => "Inclusive"
    }
  }

  /** Status of a cost breakdown item or of an expenditure request. */
  datatype ApprovalStatus = ApprovalPending | Approved | Rejected

  /** A payment row; `task` is optional (expenditures need not belong to a task). */
  datatype Payment = Payment(task: Option<string>, amount: int, date: int, description: string)

  /** A cost breakdown row of a task. */
  datatype CostItem = CostItem(
    task: string, description: string, amount: int,
    costType: CostType, status: ApprovalStatus, category: string)

  datatype ExpenditureRequest = ExpenditureRequest(
    description: string,
    amount: int,
    task: Option<string>,
    category: string,
    status: ApprovalStatus,
    costType: CostType,
    requester: nat,
    approver: Option<nat>,
    createdAt: int)

  /**
   * A cost breakdown row as the model builds it: an omitted cost type is Inclusive,
   * an omitted status is Approved, and the category defaults to "Inclusive".
   */
  function NewCostItem(
    task: string, description: string, amount: int,
    costType: Option<CostType>, status: Option<ApprovalStatus>, category: Option<string>): (c: CostItem)
    ensures c.task == task && c.amount == amount && c.description == description
    ensures costType.None? ==> c.costType == Inclusive
    ensures costType.Some? ==> c.costType == costType.value
    ensures status.None? ==> c.status == Approved
    ensures status.Some? ==> c.status == status.value
    ensures category.None? ==> c.category == "Inclusive"
    ensures category.Some? ==> c.category == category.value
  {
    CostItem(task, description, amount, costType.GetOr(Inclusive), status.GetOr(Approved),
      category.GetOr("Inclusive"))
  }

  /**
   * An expenditure request as the model builds it: it starts Pending with no approver,
   * and an omitted cost type is Inclusive.
   */
  function NewExpenditureRequest(
    description: string, amount: int, task: Option<string>, category: string, costType: Option<CostType>,
    requester: nat, createdAt: int): (e: ExpenditureRequest)
    ensures e.status == ApprovalPending && e.approver.None?
    ensures e.costType == (if costType.Some? then costType.value else Inclusive)
    ensures e.amount == amount && e.task == task && e.requester == requester
  {
    ExpenditureRequest(description, amount, task, category, ApprovalPending, costType.GetOr(Inclusive),
      requester, None, createdAt)
  }

  /** Amounts of the payments attached to task `key`, in table order. */
  function PaymentAmounts(payments: seq<Payment>, key: string): (r: seq<int>)
    ensures |r| <= |payments|
    ensures forall p :: p in payments && p.task == Some(key) ==> p.amount in r
    ensures forall x :: x in r ==> exists p :: p in payments && p.task == Some(key) && p.amount == x
  {
    if payments == [] then []
    else
      var last := payments[|payments| - 1];
      PaymentAmounts(payments[..|payments| - 1], key)
        + (if last.task == Some(key) then [last.amount] else [])
  }

  /** The cost breakdown items of task `key`, in table order. */
  function ItemsOf(items: seq<CostItem>, key: string): (r: seq<CostItem>)
    ensures forall i :: 0 <= i < |r| ==> r[i].task == key
    ensures forall c :: c in r <==> c in items && c.task == key
  {
    if items == [] then []
    else
      var last := items[|items| - 1];
      ItemsOf(items[..|items| - 1], key) + (if last.task == key then [last] else [])
  }

  /** The task's items are exactly the table filtered on the task key, in table order. */
  lemma {:induction false} ItemsOfIsFilter(items: seq<CostItem>, key: string)
    ensures ItemsOf(items, key) == Filter(items, (c: CostItem) => c.task == key)
    decreases |items|
  {
    if items != [] {
      ItemsOfIsFilter(items[..|items| - 1], key);
    }
  }

  /** The task's amounts are the amounts of the table filtered on the task key, in table order. */
  lemma {:induction false} PaymentAmountsIsFilter(payments: seq<Payment>, key: string)
    ensures PaymentAmounts(payments, key)
      == MapSeq(Filter(payments, (p: Payment) => p.task == Some(key)), (p: Payment) => p.amount)
    decreases |payments|
  {
    if payments != [] {
      var init, last := payments[..|payments| - 1], payments[|payments| - 1];
      PaymentAmountsIsFilter(init, key);
      var kept := Filter(init, (p: Payment) => p.task == Some(key));
      if last.task == Some(key) {
        assert (kept + [last])[..|kept|] == kept;
      }
    }
  }

  /** Σ of the amounts of the items of one cost type (0 when there are none). */
  function SumOfType(items: seq<CostItem>, t: CostType): int {
    if items == [] then 0
    else
      SumOfType(items[..|items| - 1], t)
        + (if items[|items| - 1].costType == t then items[|items| - 1].amount else 0)
  }

  /**
   * The total cost of a task: its estimate (null read as 0) plus its Additive items
   * less its Subtractive items; Inclusive items are already part of the estimate.
   */
  function TotalCost(estimated: Option<int>, items: seq<CostItem>): int {
    estimated.GetOr(0) + SumOfType(items, Additive) - SumOfType(items, Subtractive)
  }

  lemma SumOfTypeSnoc(items: seq<CostItem>, c: CostItem, t: CostType)
    ensures SumOfType(items + [c], t) == SumOfType(items, t) + (if c.costType == t then c.amount else 0)
  {
    assert (items + [c])[..|items|] == items;
  }

  /**
   * Adding one cost item moves the total by exactly its signed contribution:
   * +amount when Additive, −amount when Subtractive, nothing when Inclusive.
   */
  lemma TotalCostSnoc(estimated: Option<int>, items: seq<CostItem>, c: CostItem)
    ensures TotalCost(estimated, items + [c]) == TotalCost(estimated, items) + Contribution(c)
  {
    SumOfTypeSnoc(items, c, Additive);
    SumOfTypeSnoc(items, c, Subtractive);
  }

  /** The signed amount one item adds to the total cost. */
  function Contribution(c: CostItem): (d: int)
    ensures c.costType == Inclusive ==> d == 0
    ensures c.costType == Additive ==> d == c.amount
    ensures c.costType == Subtractive ==> d == -c.amount
  {
    match c.costType
    case Additive => c.amount
    case Subtractive => -c.amount
    case Inclusive => 0
  }

  /**
   * Saving a new breakdown item moves its task's total cost by the item's signed
   * amount; one saved without a cost type is Inclusive and leaves the total as it was.
   */
  lemma NewCostItemMovesTotal(
    estimated: Option<int>, items: seq<CostItem>, task: string, description: string, amount: int,
    costType: Option<CostType>, status: Option<ApprovalStatus>, category: Option<string>)
    ensures var c := NewCostItem(task, description, amount, costType, status, category);
      TotalCost(estimated, ItemsOf(items + [c], task)) == TotalCost(estimated, ItemsOf(items, task)) + Contribution(c)
    ensures costType.None? ==>
      TotalCost(estimated, ItemsOf(items + [NewCostItem(task, description, amount, costType, status, category)], task))
        == TotalCost(estimated, ItemsOf(items, task))
  {
    var c := NewCostItem(task, description, amount, costType, status, category);
    assert (items + [c])[..|items|] == items;
    assert ItemsOf(items + [c], task) == ItemsOf(items, task) + [c];
    TotalCostSnoc(estimated, ItemsOf(items, task), c);
  }

  /** The total cost is the estimate plus the sum of all contributions. */
  lemma {:induction false} TotalCostIsSumOfContributions(estimated: Option<int>, items: seq<CostItem>)
    ensures TotalCost(estimated, items) == estimated.GetOr(0) + Sum(MapSeq(items, Contribution))
    decreases |items|
  {
    if items != [] {
      var init := items[..|items| - 1];
      TotalCostIsSumOfContributions(estimated, init);
      assert items == init + [items[|items| - 1]];
      TotalCostSnoc(estimated, init, items[|items| - 1]);
      assert MapSeq(items, Contribution)[..|items| - 1] == MapSeq(init, Contribution);
    }
  }
}
