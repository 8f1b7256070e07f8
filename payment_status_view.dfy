/**
 * The payment-status panel of the task page: which statuses it offers for the
 * task's current status, the update it sends, and the edit/cancel/save cycle.
 */
module PaymentStatusView {
  import opened Basics
  import opened TaskModels

  /** `paymentStatusOptions`: every status, in display order. */
  const ALL_STATUSES: seq<PaymentStatus> := [Unpaid, PartiallyPaid, FullyPaid, Refunded]

  const UNEXPECTED_ERROR: string := "An unexpected error occurred."

  /**
   * `getFilteredPaymentStatusOptions`: a fully paid task can only stay paid or be
   * refunded, a partly paid one cannot go back to unpaid, any other may take any status.
   */
  function Options(current: PaymentStatus): (r: seq<PaymentStatus>)
    ensures current == FullyPaid ==> r == [FullyPaid, Refunded]
    ensures current == PartiallyPaid ==> r == [PartiallyPaid, FullyPaid, Refunded]
    ensures current in {Unpaid, Refunded} ==> r == ALL_STATUSES
    ensures current in r
    ensures Distinct(r)
  {
    if current == FullyPaid then [FullyPaid, Refunded]
    else if current == PartiallyPaid then [PartiallyPaid, FullyPaid, Refunded]
    else
      assert current == Unpaid || current == Refunded;
      assert ALL_STATUSES[0] == Unpaid && ALL_STATUSES[3] == Refunded;
      ALL_STATUSES
  }

  /** Only an unpaid or refunded task may be set back to Unpaid. */
  lemma UnpaidOnlyFromUnpaidOrRefunded(current: PaymentStatus)
    ensures Unpaid in Options(current) <==> current in {Unpaid, Refunded}
  {
  }

  /**
   * The update body; the outer `None` of `nextPaymentDate` is an absent key, the
   * inner one a null date.
   */
  datatype PaymentUpdate = PaymentUpdate(paymentStatus: PaymentStatus, nextPaymentDate: Option<Option<int>>)

  /** `handleSave`'s payload: the next payment date is sent only for a partial payment. */
  function Payload(status: PaymentStatus, nextPaymentDate: Option<int>): (p: PaymentUpdate)
    ensures p.paymentStatus == status
    ensures p.nextPaymentDate.Some? <==> status == PartiallyPaid
    ensures p.nextPaymentDate.Some? ==> p.nextPaymentDate.value == nextPaymentDate
  {
    PaymentUpdate(status, if status == PartiallyPaid then Some(nextPaymentDate) else None)
  }

  /** What the update request came back with: the updated task, or an error message if the response had one. */
  datatype SaveOutcome = Saved(task: Task) | SaveFailed(message: Option<string>)

  /**
   * The error shown after a failed save: the response's message when it has a
   * non-empty one, the generic message otherwise, since an empty string is falsy.
   */
  function ErrorText(message: Option<string>): (e: string)
    ensures e != []
    ensures e == UNEXPECTED_ERROR <==> message.None? || message.value == [] || message.value == UNEXPECTED_ERROR
    ensures e != UNEXPECTED_ERROR ==> message == Some(e)
  {
    if message.Some? && message.value != [] then message.value else UNEXPECTED_ERROR
  }

  /** The panel's state; `taskData` is the task the parent passes in. */
  class PaymentPanel {
    var taskData: Task
    const canEdit: bool
    var isEditing: bool
    var paymentStatus: PaymentStatus
    var nextPaymentDate: Option<int>
    var error: Option<string>

    /** The chosen status is one of the options the current status allows. */
    predicate Valid()
      reads this
    {
      paymentStatus in Options(taskData.paymentStatus)
    }

    constructor (task: Task, canEdit: bool)
      ensures Valid()
      ensures taskData == task && this.canEdit == canEdit && !isEditing && error.None?
      ensures paymentStatus == task.paymentStatus && nextPaymentDate == task.nextPaymentDate
    {
      taskData := task;
      this.canEdit := canEdit;
      isEditing := false;
      paymentStatus := task.paymentStatus;
      nextPaymentDate := task.nextPaymentDate;
      error := None;
    }

    /** The Edit button, shown only to an editor. */
    method StartEditing()
      modifies this
      ensures isEditing == (old(isEditing) || canEdit)
      ensures taskData == old(taskData) && paymentStatus == old(paymentStatus)
      ensures nextPaymentDate == old(nextPaymentDate) && error == old(error)
    {
      if canEdit {
        isEditing := true;
      }
    }

    /** Picking a status from the select, which lists only the allowed options. */
    method Choose(status: PaymentStatus)
      requires Valid() && status in Options(taskData.paymentStatus)
      modifies this
      ensures Valid()
      ensures paymentStatus == status
      ensures taskData == old(taskData) && isEditing == old(isEditing)
      ensures nextPaymentDate == old(nextPaymentDate) && error == old(error)
    {
      paymentStatus := status;
    }

    /** `handleCancel`: both fields back to the task's values, editing closed, no error. */
    method Cancel()
      requires Valid()
      modifies this
      ensures Valid()
      ensures paymentStatus == taskData.paymentStatus && nextPaymentDate == taskData.nextPaymentDate
      ensures taskData == old(taskData) && !isEditing && error.None?
    {
      paymentStatus := taskData.paymentStatus;
      nextPaymentDate := taskData.nextPaymentDate;
      isEditing := false;
      error := None;
    }

    /**
     * `handleSave` given the request's outcome. On success the parent takes the returned
     * task and the effect on `taskData` reloads both fields; on failure the edit stays
     * open with the server's message or a generic one.
     */
    method Save(outcome: SaveOutcome) returns (sent: PaymentUpdate)
      requires Valid()
      modifies this
      ensures Valid()
      ensures sent == Payload(old(paymentStatus), old(nextPaymentDate))
      ensures outcome.Saved? ==>
        && taskData == outcome.task && !isEditing && error.None?
        && paymentStatus == outcome.task.paymentStatus && nextPaymentDate == outcome.task.nextPaymentDate
      ensures outcome.SaveFailed? ==>
        && taskData == old(taskData) && isEditing == old(isEditing)
        && paymentStatus == old(paymentStatus) && nextPaymentDate == old(nextPaymentDate)
        && error == Some(ErrorText(outcome.message))
    {
      sent := Payload(paymentStatus, nextPaymentDate);
      match outcome
      case Saved(task) =>
        taskData := task;
        paymentStatus := task.paymentStatus;
        nextPaymentDate := task.nextPaymentDate;
        isEditing := false;
        error := None;
      case SaveFailed(message) =>
        error := Some(ErrorText(message));
    }
  }
}
