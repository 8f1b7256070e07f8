/**
 * The backend's status-transition policy: a role × current-status table of the
 * statuses a role may move a task to, bypassed by superusers and Managers.
 */
module StatusTransitions {
  import opened Basics
  import opened TaskModels

  type Row = seq<(Status, seq<Status>)>

  /** The Front Desk's row of `ALLOWED_TRANSITIONS`, in the dictionary's own order. */
  const FRONT_DESK_ROW: Row := [
    (Completed, [ReadyForPickup, InProgress, Pending]),
    (ReadyForPickup, [PickedUp, Pending, InProgress]),
    (PickedUp, [InProgress]),
    (Pending, [Terminated]),
    (InProgress, [Terminated, Pending])]

  /** The Technician's row of `ALLOWED_TRANSITIONS`. */
  const TECHNICIAN_ROW: Row := [
    (Pending, [InProgress]),
    (InProgress, [AwaitingParts, Completed]),
    (AwaitingParts, [InProgress])]

  /** `ALLOWED_TRANSITIONS`: a row per role; the Manager's is empty. */
  const ALLOWED_TRANSITIONS: seq<(string, Row)> := [
    (FRONT_DESK, FRONT_DESK_ROW),
    (TECHNICIAN, TECHNICIAN_ROW),
    (MANAGER, [])
  ]

  /** `ALLOWED_TRANSITIONS.get(role, {}).get(status, [])`. */
  function AllowedNext(role: string, current: Status): seq<Status> {
    Lookup(Lookup(ALLOWED_TRANSITIONS, role).GetOr([]), current).GetOr([])
  }

  /** The Front Desk and Technician look up their own rows. */
  lemma RoleRows(current: Status)
    ensures AllowedNext(FRONT_DESK, current) == Lookup(FRONT_DESK_ROW, current).GetOr([])
    ensures AllowedNext(TECHNICIAN, current) == Lookup(TECHNICIAN_ROW, current).GetOr([])
  {
    LookupAt(ALLOWED_TRANSITIONS, 0, FRONT_DESK);
    LookupAt(ALLOWED_TRANSITIONS, 1, TECHNICIAN);
  }

  predicate Privileged(u: User) { u.isSuperuser || u.role == MANAGER }

  /**
   * `can_transition`: superusers and Managers may make any move; everybody else only
   * the moves their role's row lists for the task's current status.
   */
  function CanTransition(u: User, current: Status, next: Status): (ok: bool)
    ensures Privileged(u) ==> ok
    ensures !Privileged(u) ==> (ok <==> next in AllowedNext(u.role, current))
  {
    if u.isSuperuser || u.role == MANAGER then true
    else next in AllowedNext(u.role, current)
  }

  /** The Front Desk row, stated as the set of moves it permits. */
  predicate FrontDeskMove(current: Status, next: Status) {
    || (current == Completed && next in {ReadyForPickup, InProgress, Pending})
    || (current == ReadyForPickup && next in {PickedUp, Pending, InProgress})
    || (current == PickedUp && next == InProgress)
    || (current == Pending && next == Terminated)
    || (current == InProgress && next in {Terminated, Pending})
  }

  /** The Technician row, stated as the set of moves it permits. */
  predicate TechnicianMove(current: Status, next: Status) {
    || (current == Pending && next == InProgress)
    || (current == InProgress && next in {AwaitingParts, Completed})
    || (current == AwaitingParts && next == InProgress)
  }

  /** A non-superuser Front Desk user may make exactly the Front Desk moves. */
  lemma FrontDeskRowExact(u: User, current: Status, next: Status)
    requires u.role == FRONT_DESK && !u.isSuperuser
    ensures CanTransition(u, current, next) <==> FrontDeskMove(current, next)
  {
    RoleRows(current);
  }

  /** A non-superuser Technician may make exactly the Technician moves. */
  lemma TechnicianRowExact(u: User, current: Status, next: Status)
    requires u.role == TECHNICIAN && !u.isSuperuser
    ensures CanTransition(u, current, next) <==> TechnicianMove(current, next)
  {
    RoleRows(current);
  }

  /** A role absent from the table (Accountant, or any other string) can never move a task. */
  lemma UnlistedRoleNeverTransitions(u: User, current: Status, next: Status)
    requires !u.isSuperuser && u.role !in {FRONT_DESK, TECHNICIAN, MANAGER}
    ensures !CanTransition(u, current, next)
  {
    LookupMeaning(ALLOWED_TRANSITIONS, u.role);
  }

  /** No row lists a self-transition, so re-submitting the current status needs privilege. */
  lemma NoSelfTransition(u: User, s: Status)
    requires !Privileged(u)
    ensures !CanTransition(u, s, s)
  {
    if u.role == FRONT_DESK {
      FrontDeskRowExact(u, s, s);
    } else if u.role == TECHNICIAN {
      TechnicianRowExact(u, s, s);
    } else {
      UnlistedRoleNeverTransitions(u, s, s);
    }
  }

  /**
   * Dead ends for non-privileged users: nothing leaves Terminated, Cancelled, Ready for QC
   * or Awaiting Parts for Front Desk, and a Technician cannot move a task out of
   * Completed, Ready for Pickup or Picked Up.
   */
  lemma DeadEnds(u: User, next: Status)
    requires !Privileged(u)
    ensures !CanTransition(u, Terminated, next) && !CanTransition(u, Cancelled, next)
    ensures !CanTransition(u, ReadyForQC, next)
    ensures u.role == TECHNICIAN ==>
      !CanTransition(u, Completed, next) && !CanTransition(u, ReadyForPickup, next)
      && !CanTransition(u, PickedUp, next)
    ensures u.role == FRONT_DESK ==> !CanTransition(u, AwaitingParts, next)
  {
    if u.role == FRONT_DESK {
      FrontDeskRowExact(u, Terminated, next);
      FrontDeskRowExact(u, Cancelled, next);
      FrontDeskRowExact(u, ReadyForQC, next);
      FrontDeskRowExact(u, AwaitingParts, next);
    } else if u.role == TECHNICIAN {
      TechnicianRowExact(u, Terminated, next);
      TechnicianRowExact(u, Cancelled, next);
      TechnicianRowExact(u, ReadyForQC, next);
      TechnicianRowExact(u, Completed, next);
      TechnicianRowExact(u, ReadyForPickup, next);
      TechnicianRowExact(u, PickedUp, next);
    } else {
      UnlistedRoleNeverTransitions(u, Terminated, next);
      UnlistedRoleNeverTransitions(u, Cancelled, next);
      UnlistedRoleNeverTransitions(u, ReadyForQC, next);
    }
  }
}
