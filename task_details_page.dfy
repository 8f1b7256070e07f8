/**
 * The task details page of the frontend: the role-based permissions, and the
 * field update, note and payment handlers that change the loaded task in place.
 */
module TaskDetailsPage {
  import opened Basics
  import opened Text
  import opened TaskModels

  /** A role the frontend checks for but the backend's role choices do not contain. */
  const ADMINISTRATOR: string := "Administrator"

  /** What the page lets the signed-in user do. */
  datatype Permissions = Permissions(
    editCustomer: bool, editTechnician: bool, editStatus: bool,
    editFinancials: bool, markComplete: bool, markPickedUp: bool)

  /** The role predicates; `None` is a page without a signed-in user. */
  function PermissionsOf(role: Option<string>): (p: Permissions)
    ensures role.None? ==> p == Permissions(false, false, false, false, false, false)
    ensures role == Some(ADMINISTRATOR) ==> p == Permissions(true, true, true, true, true, true)
    ensures p.editCustomer <==> role == Some(ADMINISTRATOR) || role == Some(FRONT_DESK)
    ensures p.editTechnician <==> role == Some(ADMINISTRATOR) || role == Some(MANAGER)
    ensures p.editFinancials == p.editTechnician
    ensures p.editStatus <==> role == Some(ADMINISTRATOR) || role == Some(TECHNICIAN) || role == Some(FRONT_DESK)
    ensures p.markComplete <==> role == Some(ADMINISTRATOR) || role == Some(TECHNICIAN)
    ensures p.markPickedUp <==> role == Some(ADMINISTRATOR) || role == Some(FRONT_DESK)
  {
    var isAdmin := role == Some(ADMINISTRATOR);
    var isManager := role == Some(MANAGER);
    var isTechnician := role == Some(TECHNICIAN);
    var isFrontDesk := role == Some(FRONT_DESK);
    Permissions(
      isAdmin || isFrontDesk,
      isAdmin || isManager,
      isAdmin || isTechnician || isFrontDesk,
      isAdmin || isManager,
      isAdmin || isTechnician,
      isAdmin || isFrontDesk)
  }

  /**
   * For the roles a user can actually hold, the duties are split: nobody may both
   * complete a repair and hand the laptop over, only a manager may touch the
   * financials, and an accountant may do nothing on this page.
   */
  lemma BackendRolesSplitDuties(role: string)
    requires role in ROLE_CHOICES
    ensures !(PermissionsOf(Some(role)).markComplete && PermissionsOf(Some(role)).markPickedUp)
    ensures PermissionsOf(Some(role)).editFinancials <==> role == MANAGER
    ensures role == ACCOUNTANT ==> PermissionsOf(Some(role)) == Permissions(false, false, false, false, false, false)
  {
  }

  /** The label the page writes for a settled task. */
  const PAID: string := "Paid"

  /** No backend payment status is labelled "Paid". */
  lemma PaidIsNotABackendLabel(p: PaymentStatus)
    ensures p.Label() != PAID
  {
  }

  /**
   * The status `handleAddPayment` derives as written: "Paid" once the payments reach
   * the total cost, otherwise Partially Paid, also when nothing was paid; a total that
   * does not parse compares false.
   */
  function DerivedLabelAsWritten(paid: int, totalCost: Option<int>): (s: string)
    ensures s == PAID <==> totalCost.Some? && paid >= totalCost.value
    ensures s != PAID ==> s == PartiallyPaid.Label()
  {
    if totalCost.Some? && paid >= totalCost.value then PAID else PartiallyPaid.Label()
  }

  /** A settled task gets a label that names no payment status of the backend. */
  lemma SettledLabelAsWrittenUnknown(paid: int, totalCost: Option<int>, p: PaymentStatus)
    requires totalCost.Some? && paid >= totalCost.value
    ensures p.Label() != DerivedLabelAsWritten(paid, totalCost)
  {
    PaidIsNotABackendLabel(p);
  }

  /** The derived status with the backend's Fully Paid for a settled task. */
  function DerivedStatus(paid: int, totalCost: Option<int>): (s: PaymentStatus)
    ensures s == FullyPaid <==> totalCost.Some? && paid >= totalCost.value
    ensures s != FullyPaid ==> s == PartiallyPaid
  {
    if totalCost.Some? && paid >= totalCost.value then FullyPaid else PartiallyPaid
  }

  /** The corrected derivation differs from the written one only in the settled label. */
  lemma DerivedStatusAgrees(paid: int, totalCost: Option<int>)
    ensures DerivedStatus(paid, totalCost) == PartiallyPaid <==> DerivedLabelAsWritten(paid, totalCost) == PartiallyPaid.Label()
    ensures DerivedStatus(paid, totalCost) == FullyPaid <==> DerivedLabelAsWritten(paid, totalCost) == PAID
  {
  }

  /** More money paid never takes a settled task back to partially paid. */
  lemma DerivedStatusMonotone(paid: int, more: int, totalCost: Option<int>)
    requires paid <= more && DerivedStatus(paid, totalCost) == FullyPaid
    ensures DerivedStatus(more, totalCost) == FullyPaid
  {
  }

  /** A scalar the page edits: text from an input or select, or a parsed number. */
  datatype FieldValue = Text(text: string) | Number(number: int)

  /** A payment as the page lists it; amounts in cents. */
  datatype PagePayment = PagePayment(amount: int, paymentMethod: string)

  /** An activity entry as the server returns it. */
  datatype PageActivity = PageActivity(kind: string, message: string)

  /** The loaded task: its scalar fields by name, its total, activities and payments. */
  datatype PageTask = PageTask(
    id: string, fields: map<string, FieldValue>, totalCost: Option<int>,
    activities: seq<PageActivity>, payments: seq<PagePayment>)

  const PAYMENT_STATUS: string := "payment_status"

  /** The sum of the payment amounts. */
  function Paid(ps: seq<PagePayment>): (total: int)
    ensures (forall i :: 0 <= i < |ps| ==> ps[i].amount >= 0) ==> total >= 0
  {
    if ps == [] then 0 else Paid(ps[..|ps| - 1]) + ps[|ps| - 1].amount
  }

  /** The page's state: the task once loaded, and the note and payment inputs. */
  class Page {
    var taskData: Option<PageTask>
    var newNote: string
    var newPaymentAmount: string
    var newPaymentMethod: string

    constructor ()
      ensures taskData.None? && newNote == [] && newPaymentAmount == [] && newPaymentMethod == []
    {
      taskData := None;
      newNote := [];
      newPaymentAmount := [];
      newPaymentMethod := [];
    }

    /**
     * `handleFieldUpdate`: the field changes on the page first and stays changed
     * whatever the server answers; the update sent is the one field.
     */
    method FieldUpdate(field: string, value: FieldValue) returns (sent: Option<(string, FieldValue)>)
      modifies this
      ensures old(taskData).None? ==> sent.None? && taskData.None?
      ensures old(taskData).Some? ==>
        && sent == Some((field, value))
        && taskData == Some(old(taskData).value.(fields := old(taskData).value.fields[field := value]))
      ensures newNote == old(newNote) && newPaymentAmount == old(newPaymentAmount)
      ensures newPaymentMethod == old(newPaymentMethod)
    {
      sent := None;
      if taskData.Some? {
        taskData := Some(taskData.value.(fields := taskData.value.fields[field := value]));
        sent := Some((field, value));
      }
    }

    /**
     * `handleAddNote` given the server's answer (`None` when the request fails): a
     * blank note or a missing task sends nothing; a stored note is appended to the
     * activities and the input cleared.
     */
    method AddNote(response: Option<PageActivity>) returns (sent: Option<string>)
      modifies this
      ensures sent.Some? <==> Trim(old(newNote)) != [] && old(taskData).Some?
      ensures sent.Some? ==> sent.value == old(newNote)
      ensures sent.Some? && response.Some? ==>
        && taskData == Some(old(taskData).value.(activities := old(taskData).value.activities + [response.value]))
        && newNote == []
      ensures sent.None? || response.None? ==> taskData == old(taskData) && newNote == old(newNote)
      ensures newPaymentAmount == old(newPaymentAmount) && newPaymentMethod == old(newPaymentMethod)
    {
      sent := None;
      if Trim(newNote) != [] && taskData.Some? {
        sent := Some(newNote);
        if response.Some? {
          taskData := Some(taskData.value.(activities := taskData.value.activities + [response.value]));
          newNote := [];
        }
      }
    }

    /**
     * `handleAddPayment` given the stored payment (`None` when adding fails) and whether
     * the status update then succeeds: the payment is appended and the status label
     * derived as written from all payments on the page, shown and sent before the
     * status request returns; only a successful status request clears the inputs.
     */
    method AddPayment(stored: Option<PagePayment>, statusSaved: bool) returns (status: Option<string>)
      modifies this
      ensures old(newPaymentAmount) == [] || old(newPaymentMethod) == [] || old(taskData).None? || stored.None? ==>
        && status.None? && taskData == old(taskData)
        && newPaymentAmount == old(newPaymentAmount) && newPaymentMethod == old(newPaymentMethod)
      ensures status.Some? ==>
        var t := old(taskData).value;
        var payments := t.payments + [stored.value];
        && status.value == DerivedLabelAsWritten(Paid(payments), t.totalCost)
        && taskData == Some(t.(payments := payments, fields := t.fields[PAYMENT_STATUS := Text(status.value)]))
        && (statusSaved ==> newPaymentAmount == [] && newPaymentMethod == [])
        && (!statusSaved ==> newPaymentAmount == old(newPaymentAmount) && newPaymentMethod == old(newPaymentMethod))
      ensures status.Some? <==>
        old(newPaymentAmount) != [] && old(newPaymentMethod) != [] && old(taskData).Some? && stored.Some?
      ensures status.Some? ==>
        (status.value == PAID <==> DerivedStatus(Paid(old(taskData).value.payments + [stored.value]), old(taskData).value.totalCost) == FullyPaid)
      ensures newNote == old(newNote)
    {
      status := None;
      if newPaymentAmount != [] && newPaymentMethod != [] && taskData.Some? && stored.Some? {
        var t := taskData.value;
        var payments := t.payments + [stored.value];
        var shown := DerivedLabelAsWritten(Paid(payments), t.totalCost);
        taskData := Some(t.(payments := payments, fields := t.fields[PAYMENT_STATUS := Text(shown)]));
        status := Some(shown);
        if statusSaved {
          newPaymentAmount := [];
          newPaymentMethod := [];
        }
      }
    }
  }
}
