/**
 * The task record, its enumerations and the payment-status derivation of the
 * repair shop's task model. Money is integer cents; dates are day numbers.
 */
module TaskModels {
  import opened Basics
  import opened Text

  /**
   * Every task status the backend and frontend use: the model's choices plus the
   * `Terminated` status that the transition table and the views rely on.
   */
  datatype Status =
    | Pending | InProgress | AwaitingParts | ReadyForQC | Completed
    | ReadyForPickup | PickedUp | Cancelled | Terminated
  {
    function Label(): string {
      match this
      case Pending => "Pending"
      case InProgress => "In Progress"
      case AwaitingParts => "Awaiting Parts"
      case ReadyForQC => "Ready for QC"
      case Completed => "Completed"
      case ReadyForPickup => "Ready for Pickup"
      case PickedUp => "Picked Up"
      case Cancelled => "Cancelled"
      case Terminated => "Terminated"
    }
  }

  datatype PaymentStatus = Unpaid | PartiallyPaid | FullyPaid | Refunded {
    function Label(): string {
      match this
      case Unpaid => "Unpaid"
      case PartiallyPaid => "Partially Paid"
      case FullyPaid => "Fully Paid"
      case Refunded => "Refunded"
    }
  }

  /** Labels are distinct, so a status can be recovered from its label. */
  lemma LabelsDistinct(a: Status, b: Status, p: PaymentStatus, q: PaymentStatus)
    ensures a.Label() == b.Label() ==> a == b
    ensures p.Label() == q.Label() ==> p == q
  {
  }

  datatype WorkshopStatus = InWorkshop | Solved | NotSolved {
    function Label(): string {
      match this
      case InWorkshop => "In Workshop"
      case Solved => "Solved"
      case NotSolved => "Not Solved"
    }
  }

  /** Activity kinds used by the views and the seeders. */
  datatype ActivityType =
    | StatusUpdate | Note | Diagnosis | CustomerContact | Intake
    | DeviceNote | Ready | PickedUpActivity | Workshop

  const MANAGER: string := "Manager"
  const FRONT_DESK: string := "Front Desk"
  const TECHNICIAN: string := "Technician"
  const ACCOUNTANT: string := "Accountant"

  /** The `User.Role` choices. */
  const ROLE_CHOICES: seq<string> := [MANAGER, FRONT_DESK, TECHNICIAN, ACCOUNTANT]

  /** A user row; `createdAt` is the day the account was made. */
  datatype User = User(
    id: nat,
    username: string,
    firstName: string,
    lastName: string,
    role: string,
    isSuperuser: bool,
    isStaff: bool,
    isActive: bool,
    createdAt: int)
  {
    /** `get_full_name`: first and last name joined by one space, never stripped. */
    function FullName(): string {
      firstName + " " + lastName
    }

    /** `has_add_user_permission`. */
    predicate HasAddUserPermission() {
      isSuperuser || role == MANAGER
    }
  }

  /**
   * A task row: the union of the fields the views, signals, migrations and seeders
   * read and write. Dates and date-times are day numbers.
   */
  datatype Task = Task(
    title: string,
    customer: nat,
    laptopModel: string,
    status: Status,
    urgency: string,
    currentLocation: string,
    assignedTo: Option<nat>,
    estimatedCost: Option<int>,
    totalCost: Option<int>,
    paidAmount: int,
    paymentStatus: PaymentStatus,
    paidDate: Option<int>,
    nextPaymentDate: Option<int>,
    isDebt: bool,
    dateIn: Option<int>,
    dateOut: Option<int>,
    sentOutBy: Option<nat>,
    workshopStatus: Option<WorkshopStatus>,
    workshopLocation: Option<nat>,
    workshopTechnician: Option<nat>,
    originalLocation: Option<string>,
    originalTechnician: Option<nat>,
    workshopSentAt: Option<int>,
    workshopReturnedAt: Option<int>,
    createdAt: int)

  /** A `TaskActivity` row. */
  datatype Activity = Activity(task: string, user: Option<nat>, kind: ActivityType, message: string)

  /** Python truthiness of a nullable decimal column: null and zero are both false. */
  predicate Truthy(x: Option<int>) { x.Some? && x.value != 0 }

  /**
   * `Task.outstanding_balance`: nothing is outstanding while the total cost is null or
   * zero; otherwise it is the total cost less every payment, refunds included.
   */
  function OutstandingBalance(totalCost: Option<int>, payments: seq<int>): (b: int)
    ensures !Truthy(totalCost) ==> b == 0
    ensures Truthy(totalCost) ==> b + Sum(payments) == totalCost.value
  {
    if !Truthy(totalCost) then 0 else totalCost.value - Sum(payments)
  }

  /**
   * The four-way classification inside `update_payment_status`, on the net paid
   * amount and the total cost (null read as 0). The zero test comes first.
   */
  function ClassifyPayment(paid: int, total: int): (s: PaymentStatus)
    ensures s == Unpaid <==> paid == 0
    ensures s == PartiallyPaid <==> paid != 0 && paid < total
    ensures s == FullyPaid <==> paid != 0 && paid == total
    ensures s == Refunded <==> paid != 0 && paid > total
  {
    if paid == 0 then Unpaid
    else if paid < total then PartiallyPaid
    else if paid == total then FullyPaid
    else Refunded
  }

  /**
   * `Task.update_payment_status` as a function of the task row, the amounts of its
   * payments and today's date: it rewrites `payment_status`, and `paid_date` only when
   * Fully Paid is reached with no `paid_date` yet.
   */
  function UpdatePaymentStatus(t: Task, payments: seq<int>, today: int): (r: Task)
    ensures r == t.(paymentStatus := r.paymentStatus, paidDate := r.paidDate)
    ensures r.paymentStatus == ClassifyPayment(Sum(payments), t.totalCost.GetOr(0))
    ensures t.paidDate.Some? ==> r.paidDate == t.paidDate
    ensures t.paidDate.None? ==>
      r.paidDate == (if r.paymentStatus == FullyPaid then Some(today) else None)
  {
    var status := ClassifyPayment(Sum(payments), t.totalCost.GetOr(0));
    var paidDate := if status == FullyPaid && t.paidDate.None? then Some(today) else t.paidDate;
    t.(paymentStatus := status, paidDate := paidDate)
  }

  /** With a zero total and no net payment the task is Unpaid, not Fully Paid. */
  lemma ZeroTotalIsUnpaid(t: Task, payments: seq<int>, today: int)
    requires !Truthy(t.totalCost) && Sum(payments) == 0
    ensures UpdatePaymentStatus(t, payments, today).paymentStatus == Unpaid
    ensures OutstandingBalance(t.totalCost, payments) == 0
  {
  }

  /** Refunds exceeding payments (a negative net amount) read as Partially Paid. */
  lemma NegativeNetIsPartial(t: Task, payments: seq<int>, today: int)
    requires Sum(payments) < 0 && t.totalCost.GetOr(0) >= 0
    ensures UpdatePaymentStatus(t, payments, today).paymentStatus == PartiallyPaid
  {
  }

  /** A paid date, once set, is never cleared or moved by later recomputations. */
  lemma PaidDateSticky(t: Task, payments: seq<int>, today: int)
    ensures t.paidDate.Some? ==> UpdatePaymentStatus(t, payments, today).paidDate == t.paidDate
    ensures UpdatePaymentStatus(t, payments, today).paymentStatus == FullyPaid ==>
      UpdatePaymentStatus(t, payments, today).paidDate.Some?
  {
  }

  /** Recomputing with no new payments, on any later day, leaves the row unchanged. */
  lemma UpdatePaymentStatusIdempotent(t: Task, payments: seq<int>, today: int, later: int)
    ensures UpdatePaymentStatus(UpdatePaymentStatus(t, payments, today), payments, later)
      == UpdatePaymentStatus(t, payments, today)
  {
  }

  /** On a positive total, Fully Paid and Refunded are read off the outstanding balance. */
  lemma FullyPaidMeansNothingOutstanding(t: Task, payments: seq<int>, today: int)
    requires t.totalCost.Some? && t.totalCost.value > 0
    ensures UpdatePaymentStatus(t, payments, today).paymentStatus == FullyPaid
      <==> OutstandingBalance(t.totalCost, payments) == 0
    ensures UpdatePaymentStatus(t, payments, today).paymentStatus == Refunded
      <==> OutstandingBalance(t.totalCost, payments) < 0
  {
  }
}
