/**
 * The dialog that takes a picked-up task back in: an optional renegotiated cost,
 * an optional note about the new issue, and the update that reopens the task.
 */
module ReturnTaskDialog {
  import opened Basics
  import opened TaskModels
  import opened FinancialModels

  const RENEGOTIATION: string := "Renegotiation on Return"
  const RETURN_NOTE_PREFIX: string := "Returned with new issue: "

  /** The cost breakdown the dialog asks the server to add to a task. */
  datatype CostRequest = CostRequest(task: string, description: string, amount: int, costType: CostType)

  /** The row stored for a request, which names no status and no category. */
  function Stored(r: CostRequest): (c: CostItem)
    ensures c.task == r.task && c.amount == r.amount && c.costType == r.costType
  {
    NewCostItem(r.task, r.description, r.amount, Some(r.costType), None, None)
  }

  /** `(newEstimatedCost || 0) - task.total_cost`, an empty field and a null total read as 0. */
  function Difference(task: Task, newEstimate: Option<int>): int {
    newEstimate.GetOr(0) - task.totalCost.GetOr(0)
  }

  /**
   * The renegotiation item as the dialog builds it: the signed difference as amount,
   * Additive when it is positive and Subtractive otherwise.
   */
  function RenegotiationAsWritten(task: Task, newEstimate: Option<int>): (r: CostRequest)
    ensures r.task == task.title && r.description == RENEGOTIATION
    ensures r.amount == Difference(task, newEstimate)
    ensures r.costType == Additive <==> Difference(task, newEstimate) > 0
    ensures r.costType == Subtractive <==> Difference(task, newEstimate) <= 0
  {
    var d := Difference(task, newEstimate);
    CostRequest(task.title, RENEGOTIATION, d, if d > 0 then Additive else Subtractive)
  }

  /**
   * A lower estimate stores a negative Subtractive amount, which the total-cost formula
   * subtracts: the total rises by the very amount it was meant to fall by.
   */
  lemma DownwardRenegotiationRaisesTotal(task: Task, newEstimate: Option<int>, estimated: Option<int>, items: seq<CostItem>)
    requires Difference(task, newEstimate) < 0
    ensures TotalCost(estimated, items + [Stored(RenegotiationAsWritten(task, newEstimate))])
      == TotalCost(estimated, items) - Difference(task, newEstimate)
    ensures TotalCost(estimated, items + [Stored(RenegotiationAsWritten(task, newEstimate))])
      > TotalCost(estimated, items)
  {
    TotalCostSnoc(estimated, items, Stored(RenegotiationAsWritten(task, newEstimate)));
  }

  /** The renegotiation item with the difference's magnitude as amount and its sign as type. */
  function Renegotiation(task: Task, newEstimate: Option<int>): (r: CostRequest)
    ensures r.task == task.title && r.description == RENEGOTIATION
    ensures r.amount >= 0
    ensures r.costType == Additive <==> Difference(task, newEstimate) > 0
    ensures r.costType == Subtractive <==> Difference(task, newEstimate) <= 0
  {
    var d := Difference(task, newEstimate);
    if d > 0 then CostRequest(task.title, RENEGOTIATION, d, Additive)
    else CostRequest(task.title, RENEGOTIATION, -d, Subtractive)
  }

  /**
   * The corrected item moves the total by exactly the difference; so when the items
   * agree with the task's total, the total becomes the new estimate.
   */
  lemma RenegotiationMovesTotal(task: Task, newEstimate: Option<int>, estimated: Option<int>, items: seq<CostItem>)
    ensures TotalCost(estimated, items + [Stored(Renegotiation(task, newEstimate))])
      == TotalCost(estimated, items) + Difference(task, newEstimate)
    ensures TotalCost(estimated, items) == task.totalCost.GetOr(0) ==>
      TotalCost(estimated, items + [Stored(Renegotiation(task, newEstimate))]) == newEstimate.GetOr(0)
  {
    TotalCostSnoc(estimated, items, Stored(Renegotiation(task, newEstimate)));
  }

  /** The fields of the task update. */
  datatype TaskUpdate = TaskUpdate(status: Status, estimatedCost: Option<int>, urgency: string, assignedTo: Option<nat>)

  /** Everything one submission sends: a cost item, a note and the task update. */
  datatype Submission = Submission(costItem: Option<CostRequest>, note: Option<string>, update: TaskUpdate)

  /**
   * `handleSubmit`: a cost item only when renegotiating, a note only for a non-empty
   * description, and an update that reopens the task and keeps every field the dialog
   * left empty (an estimate of 0 included).
   */
  function SubmissionOf(
    task: Task, description: string, newEstimate: Option<int>, urgency: string,
    assignedTo: Option<nat>, renegotiate: bool): (s: Submission)
    ensures s.costItem.Some? <==> renegotiate
    ensures renegotiate ==> s.costItem.value == RenegotiationAsWritten(task, newEstimate)
    ensures s.note.Some? <==> description != []
    ensures s.note.Some? ==> s.note.value == RETURN_NOTE_PREFIX + description
    ensures s.update.status == InProgress
    ensures s.update.estimatedCost == if Truthy(newEstimate) then newEstimate else task.estimatedCost
    ensures s.update.urgency == if urgency != [] then urgency else task.urgency
    ensures s.update.assignedTo == if assignedTo.Some? then assignedTo else task.assignedTo
  {
    Submission(
      if renegotiate then Some(RenegotiationAsWritten(task, newEstimate)) else None,
      if description != [] then Some(RETURN_NOTE_PREFIX + description) else None,
      TaskUpdate(
        InProgress,
        if Truthy(newEstimate) then newEstimate else task.estimatedCost,
        if urgency != [] then urgency else task.urgency,
        if assignedTo.Some? then assignedTo else task.assignedTo))
  }

  /**
   * Whatever the new estimate, the item the dialog sends moves the total cost by the
   * size of the difference, upwards: a lower estimate raises the total as well.
   */
  lemma SubmittedItemRaisesTotal(
    task: Task, description: string, newEstimate: Option<int>, urgency: string,
    assignedTo: Option<nat>, estimated: Option<int>, items: seq<CostItem>)
    ensures var item := SubmissionOf(task, description, newEstimate, urgency, assignedTo, true).costItem.value;
      TotalCost(estimated, items + [Stored(item)]) == TotalCost(estimated, items)
        + (if Difference(task, newEstimate) < 0 then -Difference(task, newEstimate) else Difference(task, newEstimate))
  {
    TotalCostSnoc(estimated, items, Stored(RenegotiationAsWritten(task, newEstimate)));
  }

  /**
   * A new estimate of 0 keeps the task's old estimate, yet the renegotiation item is
   * built from 0: a Subtractive item of minus the total, which adds the whole total
   * once more, so a total the items agree with doubles.
   */
  lemma ZeroEstimateKeepsOld(
    task: Task, description: string, urgency: string, assignedTo: Option<nat>,
    estimated: Option<int>, items: seq<CostItem>)
    ensures SubmissionOf(task, description, Some(0), urgency, assignedTo, true).update.estimatedCost == task.estimatedCost
    ensures SubmissionOf(task, description, Some(0), urgency, assignedTo, true).costItem.value.amount == -task.totalCost.GetOr(0)
    ensures task.totalCost.GetOr(0) >= 0 ==>
      SubmissionOf(task, description, Some(0), urgency, assignedTo, true).costItem
        == Some(CostRequest(task.title, RENEGOTIATION, -task.totalCost.GetOr(0), Subtractive))
    ensures task.totalCost.GetOr(0) >= 0 && TotalCost(estimated, items) == task.totalCost.GetOr(0) ==>
      TotalCost(estimated, items + [Stored(SubmissionOf(task, description, Some(0), urgency, assignedTo, true).costItem.value)])
        == 2 * task.totalCost.GetOr(0)
  {
    SubmittedItemRaisesTotal(task, description, Some(0), urgency, assignedTo, estimated, items);
  }

  /** The dialog's state: the task, the inputs (an empty estimate is `None`) and whether it is open. */
  class Dialog {
    const task: Task
    var open: bool
    var description: string
    var newEstimate: Option<int>
    var urgency: string
    var assignedTo: Option<nat>
    var renegotiate: bool

    constructor (task: Task, open: bool)
      ensures this.task == task && this.open == open
      ensures description == [] && newEstimate.None? && urgency == [] && assignedTo.None? && !renegotiate
    {
      this.task := task;
      this.open := open;
      description := [];
      newEstimate := None;
      urgency := [];
      assignedTo := None;
      renegotiate := false;
    }

    /** `handleSubmit`: the requests are fired without waiting, and the dialog closes. */
    method Submit() returns (s: Submission)
      modifies this
      ensures s == SubmissionOf(task, description, newEstimate, urgency, assignedTo, renegotiate)
      ensures !open
      ensures description == old(description) && newEstimate == old(newEstimate) && urgency == old(urgency)
      ensures assignedTo == old(assignedTo) && renegotiate == old(renegotiate)
    {
      s := SubmissionOf(task, description, newEstimate, urgency, assignedTo, renegotiate);
      open := false;
    }
  }
}
