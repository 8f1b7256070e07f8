/**
 * The task endpoint's update handler and its role guards. An update runs its side
 * effects in a fixed order (debt flag, the Accountant's payment-status override,
 * workshop send and return, then the status change) before the serializer writes
 * the request's fields onto the task row.
 */
module TaskViews {
  import opened Basics
  import opened TaskModels
  import opened Database
  import StatusTransitions

  /**
   * The request body of an update, one optional entry per key the handlers read
   * (`None` when the key is absent).
   */
  datatype TaskRequest = TaskRequest(
    isDebt: Option<bool>,
    paymentStatus: Option<PaymentStatus>,
    workshopLocation: Option<nat>,
    workshopTechnician: Option<nat>,
    workshopStatus: Option<WorkshopStatus>,
    status: Option<Status>,
    assignedTo: Option<nat>,
    sentOutBy: Option<nat>,
    dateOut: Option<int>,
    paidDate: Option<int>,
    currentLocation: Option<string>)

  /** The HTTP outcome: 200 with the task, 403 with its error text, or 404. */
  datatype Response = Ok(task: Task) | Forbidden(error: string) | NotFound

  /** `create` is open to Managers, the Front Desk and superusers. */
  predicate CanCreateTask(u: User) {
    u.role in {MANAGER, FRONT_DESK} || u.isSuperuser
  }

  /** `destroy` is open to superusers and Managers only. */
  predicate CanDestroyTask(u: User) {
    u.isSuperuser || u.role == MANAGER
  }

  /**
   * Whoever may delete a task may also create one; the Front Desk may create but not
   * delete; a plain Technician or Accountant may do neither.
   */
  lemma GuardsNested(u: User)
    ensures CanDestroyTask(u) ==> CanCreateTask(u)
    ensures !u.isSuperuser && u.role == FRONT_DESK ==> CanCreateTask(u) && !CanDestroyTask(u)
    ensures !u.isSuperuser && u.role in {TECHNICIAN, ACCOUNTANT} ==> !CanCreateTask(u) && !CanDestroyTask(u)
  {
  }

  /** `_handle_debt_status`: one activity when the request sets `is_debt` to true. */
  function DebtActivities(key: string, actor: User, req: TaskRequest): (acts: seq<Activity>)
    ensures |acts| <= 1
    ensures acts != [] <==> req.isDebt == Some(true)
    ensures forall a :: a in acts ==> a.task == key && a.kind == StatusUpdate
  {
    if req.isDebt == Some(true) then [Activity(key, Some(actor.id), StatusUpdate, "Task marked as debt.")]
    else []
  }

  /**
   * `_handle_payment_status_update`: only an Accountant's requested payment status is
   * taken; Fully Paid stamps today as the paid date, even over an earlier date.
   */
  function PaymentOverride(t: Task, actor: User, req: TaskRequest, today: int): (r: Task)
    ensures r == t.(paymentStatus := r.paymentStatus, paidDate := r.paidDate)
    ensures actor.role != ACCOUNTANT || req.paymentStatus.None? ==> r == t
    ensures actor.role == ACCOUNTANT && req.paymentStatus.Some? ==>
      r.paymentStatus == req.paymentStatus.value
      && r.paidDate == (if req.paymentStatus.value == FullyPaid then Some(today) else t.paidDate)
  {
    if actor.role != ACCOUNTANT || req.paymentStatus.None? then t
    else if req.paymentStatus.value == FullyPaid then t.(paymentStatus := FullyPaid, paidDate := Some(today))
    else t.(paymentStatus := req.paymentStatus.value)
  }

  /**
   * The send half of `_handle_workshop_logic`: remember where the task was and who sent
   * it, mark it In Workshop and move it to the workshop location; 404 when the
   * technician or the location does not exist.
   */
  function WorkshopSend(t: Task, actor: User, techId: nat, locId: nat,
                        users: map<nat, User>, locations: map<nat, string>, today: int): (r: Option<Task>)
    ensures r.None? <==> techId !in users || locId !in locations
    ensures r.Some? ==>
      && r.value.originalLocation == Some(t.currentLocation)
      && r.value.currentLocation == locations[locId]
      && r.value.workshopStatus == Some(InWorkshop)
      && r.value.originalTechnician == Some(actor.id)
      && r.value.workshopSentAt == Some(today)
      && r.value == t.(originalLocation := r.value.originalLocation, currentLocation := r.value.currentLocation,
                       workshopStatus := r.value.workshopStatus, originalTechnician := r.value.originalTechnician,
                       workshopSentAt := r.value.workshopSentAt)
  {
    if techId !in users || locId !in locations then None
    else Some(t.(originalLocation := Some(t.currentLocation), workshopStatus := Some(InWorkshop),
                 originalTechnician := Some(actor.id), workshopSentAt := Some(today),
                 currentLocation := locations[locId]))
  }

  /** Python truthiness of `task.original_location`: set and non-empty. */
  predicate HasOriginalLocation(t: Task) {
    t.originalLocation.Some? && t.originalLocation.value != ""
  }

  /**
   * The return half of `_handle_workshop_logic`: restore the remembered location when
   * there is one, hand the task to the technician who sent it, and clear the workshop
   * references.
   */
  function WorkshopReturn(t: Task, today: int): (r: Task)
    ensures HasOriginalLocation(t) ==>
      r.currentLocation == t.originalLocation.value && r.originalLocation.None?
    ensures !HasOriginalLocation(t) ==>
      r.currentLocation == t.currentLocation && r.originalLocation == t.originalLocation
    ensures r.assignedTo == t.originalTechnician
    ensures r.workshopLocation.None? && r.workshopTechnician.None? && r.originalTechnician.None?
    ensures r.workshopReturnedAt == Some(today)
    ensures r.status == t.status && r.workshopStatus == t.workshopStatus
    ensures r.paymentStatus == t.paymentStatus && r.paidDate == t.paidDate
  {
    var t1 := if HasOriginalLocation(t) then t.(currentLocation := t.originalLocation.value, originalLocation := None)
              else t;
    t1.(assignedTo := t.originalTechnician, workshopLocation := None, workshopTechnician := None,
        originalTechnician := None, workshopReturnedAt := Some(today))
  }

  predicate IsReturn(req: TaskRequest) {
    req.workshopStatus == Some(Solved) || req.workshopStatus == Some(NotSolved)
  }

  /** The WORKSHOP activity of a return, naming the outcome. */
  function ReturnActivities(key: string, actor: User, req: TaskRequest): (acts: seq<Activity>)
    ensures acts != [] <==> IsReturn(req)
    ensures |acts| <= 1 && forall a :: a in acts ==> a.kind == Workshop && a.task == key
  {
    if IsReturn(req) then
      [Activity(key, Some(actor.id), Workshop,
                "Task returned from workshop with status: " + req.workshopStatus.value.Label() + ".")]
    else []
  }

  /** The 403 text of a refused status change. */
  function ForbiddenMessage(role: string, current: Status, next: Status): string {
    "As a " + role + ", you cannot change status from '" + current.Label() + "' to '" + next.Label() + "'."
  }

  /** The activity message of the three statuses that log one. */
  function StatusMessage(next: Status): Option<string> {
    match next
    case PickedUp => Some("Task has been picked up by the customer.")
    case Completed => Some("Task marked as Completed.")
    case ReadyForPickup => Some("Task has been approved and is ready for pickup.")
    case _ => None
  }

  /** Python truthiness of a request's user id: present and non-zero. */
  predicate TruthyId(x: Option<nat>) { x.Some? && x.value != 0 }

  /** What `_handle_status_update` leaves for `update`: a 403, a 404, or the changed task, data and activities. */
  datatype StatusStep =
    | Refused(message: string)
    | Missing
    | Accepted(task: Task, data: TaskRequest, acts: seq<Activity>)

  /**
   * `_handle_status_update`: refuse a move the policy forbids; log the three
   * fixed messages; stamp the pickup data; let the Front Desk hand an In Progress
   * task to a Technician, who must exist.
   */
  function HandleStatus(key: string, t: Task, actor: User, req: TaskRequest, next: Status,
                        users: map<nat, User>, today: int): (r: StatusStep)
    ensures r.Refused? <==> !StatusTransitions.CanTransition(actor, t.status, next)
    ensures r.Refused? ==> r.message == ForbiddenMessage(actor.role, t.status, next)
    ensures r.Accepted? ==> r.task.status == t.status && r.task == t.(assignedTo := r.task.assignedTo)
    ensures r.Accepted? && next == PickedUp ==>
      r.data == req.(sentOutBy := Some(actor.id), dateOut := Some(today))
    ensures r.Accepted? && next != PickedUp ==> r.data == req
    ensures r.Accepted? ==> forall a :: a in r.acts ==> a.task == key
  {
    if !StatusTransitions.CanTransition(actor, t.status, next) then
      Refused(ForbiddenMessage(actor.role, t.status, next))
    else
      var acts := match StatusMessage(next)
        case Some(m) => [Activity(key, Some(actor.id), StatusUpdate, m)]
        case None => [];
      var data := if next == PickedUp then req.(sentOutBy := Some(actor.id), dateOut := Some(today)) else req;
      if next == InProgress && actor.role == FRONT_DESK && TruthyId(req.assignedTo) then
        var id := req.assignedTo.value;
        if id in users && users[id].role == TECHNICIAN then
          Accepted(t.(assignedTo := Some(id)), data,
                   acts + [Activity(key, Some(actor.id), StatusUpdate,
                                    "Task assigned to " + users[id].FullName() + ".")])
        else Missing
      else Accepted(t, data, acts)
  }

  /** An accepted move to Picked Up logs the pickup message alone and keeps the row. */
  lemma AcceptedPickup(key: string, t: Task, actor: User, req: TaskRequest, users: map<nat, User>, today: int)
    requires HandleStatus(key, t, actor, req, PickedUp, users, today).Accepted?
    ensures var r := HandleStatus(key, t, actor, req, PickedUp, users, today);
      r.acts == [Activity(key, Some(actor.id), StatusUpdate, "Task has been picked up by the customer.")]
  {
  }

  /**
   * An accepted Front Desk move to In Progress naming a user assigns the task to that
   * user, who is a Technician, and logs the assignment last.
   */
  lemma AcceptedAssignment(key: string, t: Task, actor: User, req: TaskRequest, users: map<nat, User>, today: int)
    requires actor.role == FRONT_DESK && TruthyId(req.assignedTo)
    requires HandleStatus(key, t, actor, req, InProgress, users, today).Accepted?
    ensures var r := HandleStatus(key, t, actor, req, InProgress, users, today);
      var id := req.assignedTo.value;
      && id in users && users[id].role == TECHNICIAN
      && r.task.assignedTo == Some(id) && r.data == req
      && r.acts == [Activity(key, Some(actor.id), StatusUpdate, "Task assigned to " + users[id].FullName() + ".")]
  {
  }

  /**
   * The serializer's write of the request onto the row: every key the request carries
   * replaces the column, every other column stays. `payment_status` is read-only for
   * it, so only the Accountant override above ever changes the payment status; the paid
   * date and the current location are plain writable columns.
   */
  function ApplyRequest(t: Task, data: TaskRequest): (r: Task)
    ensures r.paymentStatus == t.paymentStatus && r.originalLocation == t.originalLocation
    ensures data.status.Some? ==> r.status == data.status.value
    ensures data.status.None? ==> r.status == t.status
    ensures data.assignedTo.Some? ==> r.assignedTo == data.assignedTo
    ensures data.assignedTo.None? ==> r.assignedTo == t.assignedTo
    ensures data.workshopLocation.Some? ==> r.workshopLocation == data.workshopLocation
    ensures data.workshopLocation.None? ==> r.workshopLocation == t.workshopLocation
    ensures data.workshopTechnician.Some? ==> r.workshopTechnician == data.workshopTechnician
    ensures data.workshopTechnician.None? ==> r.workshopTechnician == t.workshopTechnician
    ensures data.workshopStatus.Some? ==> r.workshopStatus == data.workshopStatus
    ensures data.workshopStatus.None? ==> r.workshopStatus == t.workshopStatus
    ensures data.sentOutBy.Some? ==> r.sentOutBy == data.sentOutBy
    ensures data.sentOutBy.None? ==> r.sentOutBy == t.sentOutBy
    ensures data.dateOut.Some? ==> r.dateOut == data.dateOut
    ensures data.dateOut.None? ==> r.dateOut == t.dateOut
    ensures data.isDebt.Some? ==> r.isDebt == data.isDebt.value
    ensures data.isDebt.None? ==> r.isDebt == t.isDebt
    ensures data.paidDate.Some? ==> r.paidDate == data.paidDate
    ensures data.paidDate.None? ==> r.paidDate == t.paidDate
    ensures data.currentLocation.Some? ==> r.currentLocation == data.currentLocation.value
    ensures data.currentLocation.None? ==> r.currentLocation == t.currentLocation
  {
    t.(status := data.status.GetOr(t.status),
       assignedTo := data.assignedTo.Or(t.assignedTo),
       workshopLocation := data.workshopLocation.Or(t.workshopLocation),
       workshopTechnician := data.workshopTechnician.Or(t.workshopTechnician),
       workshopStatus := data.workshopStatus.Or(t.workshopStatus),
       sentOutBy := data.sentOutBy.Or(t.sentOutBy),
       dateOut := data.dateOut.Or(t.dateOut),
       isDebt := data.isDebt.GetOr(t.isDebt),
       paidDate := data.paidDate.Or(t.paidDate),
       currentLocation := data.currentLocation.GetOr(t.currentLocation))
  }

  /** A request with no keys. */
  const EmptyRequest: TaskRequest := TaskRequest(None, None, None, None, None, None, None, None, None, None, None)

  /**
   * The write is a partial update: a request without keys leaves the row as it was, and
   * writing the same request twice is writing it once.
   */
  lemma ApplyRequestPartial(t: Task, data: TaskRequest)
    ensures ApplyRequest(t, EmptyRequest) == t
    ensures ApplyRequest(ApplyRequest(t, data), data) == ApplyRequest(t, data)
  {
  }

  /**
   * Columns the request has no key for are never written: the amounts, the dates other
   * than the paid date and date out, the workshop timestamps and the creation day.
   */
  lemma ApplyRequestKeepsOtherColumns(t: Task, data: TaskRequest)
    ensures var r := ApplyRequest(t, data);
      && r.title == t.title && r.customer == t.customer && r.estimatedCost == t.estimatedCost
      && r.totalCost == t.totalCost && r.paidAmount == t.paidAmount && r.dateIn == t.dateIn
      && r.workshopSentAt == t.workshopSentAt && r.workshopReturnedAt == t.workshopReturnedAt
      && r.originalTechnician == t.originalTechnician && r.createdAt == t.createdAt
  {
  }

  predicate IsSend(req: TaskRequest) {
    req.workshopLocation.Some? && req.workshopTechnician.Some?
  }

  /**
   * `_handle_workshop_logic`: a send when both workshop keys are present (404 when
   * either id is unknown), then a return when the request reports Solved or Not Solved.
   */
  function WorkshopLogic(t: Task, actor: User, req: TaskRequest, users: map<nat, User>,
                         locations: map<nat, string>, today: int): (r: Option<Task>)
    ensures r.None? <==> IsSend(req) && (req.workshopTechnician.value !in users
                                          || req.workshopLocation.value !in locations)
    ensures r.Some? && !IsSend(req) && !IsReturn(req) ==> r.value == t
    ensures r.Some? ==> r.value.status == t.status && r.value.paymentStatus == t.paymentStatus
                        && r.value.paidDate == t.paidDate
  {
    var sent := if IsSend(req) then
        WorkshopSend(t, actor, req.workshopTechnician.value, req.workshopLocation.value, users, locations, today)
      else Some(t);
    if sent.None? then None
    else if IsReturn(req) then Some(WorkshopReturn(sent.value, today))
    else sent
  }

  /** What an update does to its own task: the response, the row it leaves, the activities it adds. */
  datatype Handled = Handled(resp: Response, row: Task, added: seq<Activity>)

  /**
   * `TaskViewSet.update` on an existing task `t`. The payment override is saved at once;
   * on a 403 or 404 that saved row is what remains, and on success the serializer's
   * write of the request is saved over it.
   */
  function HandleUpdate(t: Task, users: map<nat, User>, locations: map<nat, string>,
                        key: string, actor: User, req: TaskRequest, today: int): (h: Handled)
    ensures h.resp.Ok? ==> h.row == h.resp.task
    ensures !h.resp.Ok? ==> h.row == PaymentOverride(t, actor, req, today)
    ensures forall a :: a in h.added ==> a.task == key
  {
    var acts0 := DebtActivities(key, actor, req);
    var saved := PaymentOverride(t, actor, req, today);
    match WorkshopLogic(saved, actor, req, users, locations, today)
    case None => Handled(NotFound, saved, acts0)
    case Some(t2) =>
      var acts1 := acts0 + ReturnActivities(key, actor, req);
      var s := if req.status.Some? then HandleStatus(key, t2, actor, req, req.status.value, users, today)
               else Accepted(t2, req, []);
      match s
      case Refused(m) => Handled(Forbidden(m), saved, acts1)
      case Missing => Handled(NotFound, saved, acts1)
      case Accepted(t3, data, acts) =>
        var done := ApplyRequest(t3, data);
        Handled(Ok(done), done, acts1 + acts)
  }

  /** `update` on an existing task is `HandleUpdate` applied to its row. */
  lemma UpdateOutcomeOfExisting(tasks: map<string, Task>, activities: seq<Activity>, users: map<nat, User>,
                                locations: map<nat, string>, key: string, actor: User, req: TaskRequest,
                                today: int)
    requires key in tasks
    ensures var h := HandleUpdate(tasks[key], users, locations, key, actor, req, today);
      UpdateOutcome(tasks, activities, users, locations, key, actor, req, today)
        == Outcome(h.resp, tasks[key := h.row], activities + h.added)
  {
  }

  /** `HandleUpdate` once the workshop handler has produced `t2`, case by case on the status handler. */
  lemma HandleUpdateAfterWorkshop(t: Task, users: map<nat, User>, locations: map<nat, string>,
                                  key: string, actor: User, req: TaskRequest, today: int, t2: Task)
    requires WorkshopLogic(PaymentOverride(t, actor, req, today), actor, req, users, locations, today) == Some(t2)
    ensures var h := HandleUpdate(t, users, locations, key, actor, req, today);
      var saved := PaymentOverride(t, actor, req, today);
      var acts1 := DebtActivities(key, actor, req) + ReturnActivities(key, actor, req);
      var s := if req.status.Some? then HandleStatus(key, t2, actor, req, req.status.value, users, today)
               else Accepted(t2, req, []);
      && (s.Refused? ==> h == Handled(Forbidden(s.message), saved, acts1))
      && (s.Missing? ==> h == Handled(NotFound, saved, acts1))
      && (s.Accepted? ==> h == Handled(Ok(ApplyRequest(s.task, s.data)), ApplyRequest(s.task, s.data), acts1 + s.acts))
  {
  }

  /** The state an update leaves: its response, the task table and the activity log. */
  datatype Outcome = Outcome(resp: Response, tasks: map<string, Task>, activities: seq<Activity>)

  /**
   * `TaskViewSet.update` over the whole database: 404 for an unknown title; otherwise
   * only row `key` changes and the log only grows, by activities about that task.
   */
  function UpdateOutcome(tasks: map<string, Task>, activities: seq<Activity>, users: map<nat, User>,
                         locations: map<nat, string>, key: string, actor: User, req: TaskRequest,
                         today: int): (o: Outcome)
    ensures key !in tasks ==> o == Outcome(NotFound, tasks, activities)
    ensures o.tasks.Keys == tasks.Keys
    ensures forall k :: k in tasks && k != key ==> o.tasks[k] == tasks[k]
    ensures |o.activities| >= |activities| && o.activities[..|activities|] == activities
    ensures forall i :: |activities| <= i < |o.activities| ==> o.activities[i].task == key
    ensures o.resp.Ok? ==> key in tasks && o.tasks[key] == o.resp.task
  {
    if key !in tasks then Outcome(NotFound, tasks, activities)
    else
      var h := HandleUpdate(tasks[key], users, locations, key, actor, req, today);
      assert forall i :: |activities| <= i < |activities + h.added| ==>
        (activities + h.added)[i] == h.added[i - |activities|];
      Outcome(h.resp, tasks[key := h.row], activities + h.added)
  }

  /** `_handle_debt_status`. */
  method HandleDebtStatus(db: Db, key: string, actor: User, data: TaskRequest)
    modifies db
    ensures db.activities == old(db.activities) + DebtActivities(key, actor, data)
    ensures db.tasks == old(db.tasks) && db.users == old(db.users) && db.locations == old(db.locations)
    ensures db.payments == old(db.payments) && db.costItems == old(db.costItems)
    ensures db.expenditures == old(db.expenditures)
  {
    if data.isDebt == Some(true) {
      db.activities := db.activities + [Activity(key, Some(actor.id), StatusUpdate, "Task marked as debt.")];
    }
  }

  /** `_handle_payment_status_update`: change the loaded row and save it. */
  method HandlePaymentStatusUpdate(db: Db, key: string, task: Task, actor: User, data: TaskRequest, today: int)
    returns (updated: Task)
    requires key in db.tasks && db.tasks[key] == task
    modifies db
    ensures updated == PaymentOverride(task, actor, data, today)
    ensures db.tasks == old(db.tasks)[key := updated]
    ensures db.activities == old(db.activities) && db.users == old(db.users) && db.locations == old(db.locations)
    ensures db.payments == old(db.payments) && db.costItems == old(db.costItems)
    ensures db.expenditures == old(db.expenditures)
  {
    updated := task;
    if actor.role == ACCOUNTANT && data.paymentStatus.Some? {
      updated := updated.(paymentStatus := data.paymentStatus.value);
      if data.paymentStatus.value == FullyPaid {
        updated := updated.(paidDate := Some(today));
      }
      db.tasks := db.tasks[key := updated];
    }
  }

  /** `_handle_workshop_logic` on the loaded row; `None` is the 404 it can raise. */
  method HandleWorkshopLogic(db: Db, key: string, task: Task, actor: User, data: TaskRequest, today: int)
    returns (updated: Option<Task>)
    modifies db
    ensures updated == WorkshopLogic(task, actor, data, db.users, db.locations, today)
    ensures db.activities == old(db.activities) + (if updated.Some? then ReturnActivities(key, actor, data) else [])
    ensures db.tasks == old(db.tasks) && db.users == old(db.users) && db.locations == old(db.locations)
    ensures db.payments == old(db.payments) && db.costItems == old(db.costItems)
    ensures db.expenditures == old(db.expenditures)
  {
    var t := task;
    if data.workshopLocation.Some? && data.workshopTechnician.Some? {
      t := t.(originalLocation := Some(t.currentLocation), workshopStatus := Some(InWorkshop),
              originalTechnician := Some(actor.id), workshopSentAt := Some(today));
      if data.workshopTechnician.value !in db.users || data.workshopLocation.value !in db.locations {
        return None;
      }
      t := t.(currentLocation := db.locations[data.workshopLocation.value]);
      assert t == WorkshopSend(task, actor, data.workshopTechnician.value, data.workshopLocation.value,
                               db.users, db.locations, today).value;
    }
    ghost var sent := t;
    if data.workshopStatus == Some(Solved) || data.workshopStatus == Some(NotSolved) {
      if t.originalLocation.Some? && t.originalLocation.value != "" {
        t := t.(currentLocation := t.originalLocation.value, originalLocation := None);
      }
      t := t.(assignedTo := t.originalTechnician, workshopLocation := None,
              workshopTechnician := None, originalTechnician := None, workshopReturnedAt := Some(today));
      assert t == WorkshopReturn(sent, today);
      db.activities := db.activities + [Activity(key, Some(actor.id), Workshop,
        "Task returned from workshop with status: " + data.workshopStatus.value.Label() + ".")];
    }
    return Some(t);
  }

  /** `_handle_status_update` on the loaded row and the request data. */
  method HandleStatusUpdate(db: Db, key: string, task: Task, actor: User, data: TaskRequest, next: Status, today: int)
    returns (step: StatusStep)
    modifies db
    ensures step == HandleStatus(key, task, actor, data, next, db.users, today)
    ensures db.activities == old(db.activities) + (if step.Accepted? then step.acts else [])
    ensures db.tasks == old(db.tasks) && db.users == old(db.users) && db.locations == old(db.locations)
    ensures db.payments == old(db.payments) && db.costItems == old(db.costItems)
    ensures db.expenditures == old(db.expenditures)
  {
    if !StatusTransitions.CanTransition(actor, task.status, next) {
      return Refused(ForbiddenMessage(actor.role, task.status, next));
    }
    var t, d := task, data;
    var added: seq<Activity> := [];
    var message := StatusMessage(next);
    if message.Some? {
      added := [Activity(key, Some(actor.id), StatusUpdate, message.value)];
      if next == PickedUp {
        d := d.(sentOutBy := Some(actor.id), dateOut := Some(today));
      }
    }
    if next == InProgress && actor.role == FRONT_DESK {
      var technicianId := d.assignedTo;
      if technicianId.Some? && technicianId.value != 0 {
        if technicianId.value !in db.users || db.users[technicianId.value].role != TECHNICIAN {
          return Missing;
        }
        var technician := db.users[technicianId.value];
        t := t.(assignedTo := Some(technicianId.value));
        added := added + [Activity(key, Some(actor.id), StatusUpdate,
                                   "Task assigned to " + technician.FullName() + ".")];
      }
    }
    db.activities := db.activities + added;
    return Accepted(t, d, added);
  }

  /**
   * The tail of `update` once the workshop handler has run: the status handler, then
   * the serializer's write and save. `saved` is the row as the payment override left it.
   */
  method FinishUpdate(db: Db, key: string, task: Task, saved: Task, actor: User, req: TaskRequest, today: int)
    returns (resp: Response)
    requires key in db.tasks && db.tasks[key] == saved
    modifies db
    ensures var s := if req.status.Some? then HandleStatus(key, task, actor, req, req.status.value, db.users, today)
                     else Accepted(task, req, []);
      && (s.Refused? ==> resp == Forbidden(s.message) && db.tasks == old(db.tasks))
      && (s.Missing? ==> resp == NotFound && db.tasks == old(db.tasks))
      && (s.Accepted? ==> resp == Ok(ApplyRequest(s.task, s.data)) && db.tasks == old(db.tasks)[key := resp.task])
      && db.activities == old(db.activities) + (if s.Accepted? then s.acts else [])
    ensures db.users == old(db.users) && db.locations == old(db.locations)
    ensures db.payments == old(db.payments) && db.costItems == old(db.costItems)
    ensures db.expenditures == old(db.expenditures)
  {
    var t, data := task, req;
    if req.status.Some? {
      var step := HandleStatusUpdate(db, key, task, actor, req, req.status.value, today);
      match step
      case Refused(m) => return Forbidden(m);
      case Missing => return NotFound;
      case Accepted(t', d, _) => t, data := t', d;
    }
    t := ApplyRequest(t, data);
    db.tasks := db.tasks[key := t];
    return Ok(t);
  }

  /**
   * `TaskViewSet.update`: load the row, run the handlers in their fixed order on the
   * loaded copy, and on success let the serializer write the request and save the row.
   */
  method Update(db: Db, key: string, actor: User, req: TaskRequest, today: int) returns (resp: Response)
    modifies db
    ensures key !in old(db.tasks) ==>
      resp == NotFound && db.tasks == old(db.tasks) && db.activities == old(db.activities)
    ensures key in old(db.tasks) ==>
      var h := HandleUpdate(old(db.tasks)[key], db.users, db.locations, key, actor, req, today);
      resp == h.resp && db.tasks == old(db.tasks)[key := h.row] && db.activities == old(db.activities) + h.added
    ensures db.payments == old(db.payments) && db.costItems == old(db.costItems)
    ensures db.expenditures == old(db.expenditures)
    ensures db.users == old(db.users) && db.locations == old(db.locations)
  {
    if key !in db.tasks {
      return NotFound;
    }
    var task := db.tasks[key];
    ghost var tasks0, log0, users, locations := db.tasks, db.activities, db.users, db.locations;
    ghost var h := HandleUpdate(task, users, locations, key, actor, req, today);
    HandleDebtStatus(db, key, actor, req);
    ghost var log1 := db.activities;
    task := HandlePaymentStatusUpdate(db, key, task, actor, req, today);
    var afterWorkshop := HandleWorkshopLogic(db, key, task, actor, req, today);
    if afterWorkshop.None? {
      assert h == Handled(NotFound, task, DebtActivities(key, actor, req));
      return NotFound;
    }
    ghost var acts1 := DebtActivities(key, actor, req) + ReturnActivities(key, actor, req);
    assert db.activities == log0 + acts1 by {
      AppendAssoc(log0, DebtActivities(key, actor, req), ReturnActivities(key, actor, req));
    }
    HandleUpdateAfterWorkshop(tasks0[key], users, locations, key, actor, req, today, afterWorkshop.value);
    ghost var s := if req.status.Some? then HandleStatus(key, afterWorkshop.value, actor, req, req.status.value, users, today)
                   else Accepted(afterWorkshop.value, req, []);
    AppendAssoc(log0, acts1, if s.Accepted? then s.acts else []);
    resp := FinishUpdate(db, key, afterWorkshop.value, task, actor, req, today);
    if s.Accepted? {
      UpdateTwice(tasks0, key, task, resp.task);
    }
  }

  /**
   * A workshop round trip: sending a task out and bringing it back returns it to where
   * it was (when that place had a name) and assigns it to the user who sent it, not
   * to whoever held it before.
   */
  lemma WorkshopRoundTrip(t: Task, sender: User, techId: nat, locId: nat, users: map<nat, User>,
                          locations: map<nat, string>, sentOn: int, returnedOn: int)
    requires techId in users && locId in locations
    ensures var back := WorkshopReturn(WorkshopSend(t, sender, techId, locId, users, locations, sentOn).value, returnedOn);
      && (t.currentLocation != "" ==> back.currentLocation == t.currentLocation && back.originalLocation.None?)
      && (t.currentLocation == "" ==> back.currentLocation == locations[locId] && back.originalLocation == Some(""))
      && back.assignedTo == Some(sender.id)
      && back.workshopStatus == Some(InWorkshop)
      && back.workshopSentAt == Some(sentOn) && back.workshopReturnedAt == Some(returnedOn)
      && back.status == t.status && back.paymentStatus == t.paymentStatus
  {
  }

  /**
   * Nothing stops a second send while the task is in a workshop: the remembered
   * location becomes the first workshop's name, so the return goes there and the
   * original location is lost.
   */
  lemma DoubleSendLosesHome(t: Task, sender: User, techId: nat, loc1: nat, loc2: nat,
                            users: map<nat, User>, locations: map<nat, string>, d1: int, d2: int, d3: int)
    requires techId in users && loc1 in locations && loc2 in locations
    requires locations[loc1] != "" && locations[loc1] != t.currentLocation
    ensures var once := WorkshopSend(t, sender, techId, loc1, users, locations, d1).value;
      var twice := WorkshopSend(once, sender, techId, loc2, users, locations, d2).value;
      WorkshopReturn(twice, d3).currentLocation == locations[loc1] != t.currentLocation
  {
  }

  /**
   * The status check runs last, so a refused change still keeps what the earlier
   * handlers did: the debt and workshop-return activities and the Accountant's saved
   * payment status. The workshop changes to the row itself are not saved.
   */
  lemma RefusedStatusKeepsEarlierEffects(tasks: map<string, Task>, activities: seq<Activity>,
                                         users: map<nat, User>, locations: map<nat, string>,
                                         key: string, actor: User, req: TaskRequest, today: int)
    requires key in tasks
    ensures var o := UpdateOutcome(tasks, activities, users, locations, key, actor, req, today);
      o.resp.Forbidden? ==>
        && o.tasks == tasks[key := PaymentOverride(tasks[key], actor, req, today)]
        && o.activities == activities + DebtActivities(key, actor, req) + ReturnActivities(key, actor, req)
  {
    var o := UpdateOutcome(tasks, activities, users, locations, key, actor, req, today);
    UpdateOutcomeOfExisting(tasks, activities, users, locations, key, actor, req, today);
    var t := tasks[key];
    var w := WorkshopLogic(PaymentOverride(t, actor, req, today), actor, req, users, locations, today);
    if o.resp.Forbidden? {
      assert w.Some?;
      HandleUpdateAfterWorkshop(t, users, locations, key, actor, req, today, w.value);
    }
  }

  /**
   * The request is refused with 403 exactly when the policy forbids the move from the
   * task's current status, provided the task exists and a workshop send does not 404
   * first; the message names the role and both statuses.
   */
  lemma ForbiddenExactlyWhenPolicyRefuses(tasks: map<string, Task>, activities: seq<Activity>,
                                          users: map<nat, User>, locations: map<nat, string>,
                                          key: string, actor: User, req: TaskRequest, today: int)
    requires key in tasks && req.status.Some?
    requires IsSend(req) ==> req.workshopTechnician.value in users && req.workshopLocation.value in locations
    ensures var o := UpdateOutcome(tasks, activities, users, locations, key, actor, req, today);
      var current := tasks[key].status;
      && (o.resp.Forbidden? <==> !StatusTransitions.CanTransition(actor, current, req.status.value))
      && (o.resp.Forbidden? ==> o.resp.error == ForbiddenMessage(actor.role, current, req.status.value))
  {
    UpdateOutcomeOfExisting(tasks, activities, users, locations, key, actor, req, today);
    var t := tasks[key];
    var w := WorkshopLogic(PaymentOverride(t, actor, req, today), actor, req, users, locations, today);
    assert w.Some?;
    HandleUpdateAfterWorkshop(t, users, locations, key, actor, req, today, w.value);
  }

  /**
   * The row an update leaves keeps the payment status the override gave it, and its paid
   * date too unless the request carries one.
   */
  lemma RowKeepsOverridePayment(t: Task, users: map<nat, User>, locations: map<nat, string>,
                                key: string, actor: User, req: TaskRequest, today: int)
    ensures var h := HandleUpdate(t, users, locations, key, actor, req, today);
      var saved := PaymentOverride(t, actor, req, today);
      && h.row.paymentStatus == saved.paymentStatus
      && (req.paidDate.None? ==> h.row.paidDate == saved.paidDate)
  {
    var w := WorkshopLogic(PaymentOverride(t, actor, req, today), actor, req, users, locations, today);
    if w.Some? {
      HandleUpdateAfterWorkshop(t, users, locations, key, actor, req, today, w.value);
    }
  }

  /**
   * Nobody but an Accountant changes a task's payment status through this endpoint. The
   * paid date is a writable column, so anyone may set it by sending `paid_date`; without
   * that key only the Accountant's override moves it.
   */
  lemma OnlyAccountantSetsPaymentStatus(tasks: map<string, Task>, activities: seq<Activity>,
                                        users: map<nat, User>, locations: map<nat, string>,
                                        key: string, actor: User, req: TaskRequest, today: int)
    requires actor.role != ACCOUNTANT
    ensures var o := UpdateOutcome(tasks, activities, users, locations, key, actor, req, today);
      forall k :: k in tasks ==> o.tasks[k].paymentStatus == tasks[k].paymentStatus
    ensures var o := UpdateOutcome(tasks, activities, users, locations, key, actor, req, today);
      req.paidDate.None? ==> forall k :: k in tasks ==> o.tasks[k].paidDate == tasks[k].paidDate
  {
    if key in tasks {
      UpdateOutcomeOfExisting(tasks, activities, users, locations, key, actor, req, today);
      RowKeepsOverridePayment(tasks[key], users, locations, key, actor, req, today);
    }
  }

  /**
   * An accepted move to Picked Up records the actor as the one who sent it out, today
   * as the date out, and adds the pickup message to the log.
   */
  lemma PickupStamps(tasks: map<string, Task>, activities: seq<Activity>,
                     users: map<nat, User>, locations: map<nat, string>,
                     key: string, actor: User, req: TaskRequest, today: int)
    requires req.status == Some(PickedUp)
    ensures var o := UpdateOutcome(tasks, activities, users, locations, key, actor, req, today);
      o.resp.Ok? ==>
        && o.resp.task.status == PickedUp
        && o.resp.task.sentOutBy == Some(actor.id) && o.resp.task.dateOut == Some(today)
        && |o.activities| > 0
        && o.activities[|o.activities| - 1]
           == Activity(key, Some(actor.id), StatusUpdate, "Task has been picked up by the customer.")
  {
    var o := UpdateOutcome(tasks, activities, users, locations, key, actor, req, today);
    if key in tasks && o.resp.Ok? {
      UpdateOutcomeOfExisting(tasks, activities, users, locations, key, actor, req, today);
      var t := tasks[key];
      var w := WorkshopLogic(PaymentOverride(t, actor, req, today), actor, req, users, locations, today);
      assert w.Some?;
      HandleUpdateAfterWorkshop(t, users, locations, key, actor, req, today, w.value);
      AcceptedPickup(key, w.value, actor, req, users, today);
    }
  }

  /**
   * When the Front Desk moves a task to In Progress naming a user, the update succeeds
   * only if that user exists and is a Technician, and then the task is assigned to them
   * and the last activity says so.
   */
  lemma FrontDeskAssignsTechnician(tasks: map<string, Task>, activities: seq<Activity>,
                                   users: map<nat, User>, locations: map<nat, string>,
                                   key: string, actor: User, req: TaskRequest, today: int)
    requires actor.role == FRONT_DESK && req.status == Some(InProgress) && TruthyId(req.assignedTo)
    ensures var o := UpdateOutcome(tasks, activities, users, locations, key, actor, req, today);
      var id := req.assignedTo.value;
      o.resp.Ok? ==>
        && id in users && users[id].role == TECHNICIAN
        && o.resp.task.assignedTo == Some(id)
        && |o.activities| > 0
        && o.activities[|o.activities| - 1]
           == Activity(key, Some(actor.id), StatusUpdate, "Task assigned to " + users[id].FullName() + ".")
  {
    var o := UpdateOutcome(tasks, activities, users, locations, key, actor, req, today);
    if key in tasks && o.resp.Ok? {
      UpdateOutcomeOfExisting(tasks, activities, users, locations, key, actor, req, today);
      var t := tasks[key];
      var w := WorkshopLogic(PaymentOverride(t, actor, req, today), actor, req, users, locations, today);
      assert w.Some?;
      HandleUpdateAfterWorkshop(t, users, locations, key, actor, req, today, w.value);
      AcceptedAssignment(key, w.value, actor, req, users, today);
    }
  }
}
