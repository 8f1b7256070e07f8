/**
 * The frontend's own transition table, used to offer status choices in the UI,
 * and how it differs from the backend policy.
 */
module FrontendTransitions {
  import opened Basics
  import opened TaskModels
  import StatusTransitions

  type Row = seq<(Status, seq<Status>)>

  /** `transitions`, in the object literal's own key order. */
  const TRANSITIONS: seq<(string, Row)> := [
    (FRONT_DESK, [
      (Completed, [ReadyForPickup]),
      (ReadyForPickup, [PickedUp]),
      (Pending, [Cancelled]),
      (InProgress, [Cancelled]),
      (AwaitingParts, [Cancelled]),
      (ReadyForQC, [Cancelled])]),
    (TECHNICIAN, [
      (Pending, [InProgress]),
      (InProgress, [AwaitingParts, ReadyForQC]),
      (AwaitingParts, [InProgress])]),
    (MANAGER, [
      (ReadyForQC, [Completed, InProgress])])
  ]

  /** `Object.values(transitions).reduce((acc, val) => acc.concat(Object.keys(val)), [])`. */
  function ConcatKeys(rows: seq<(string, Row)>): (r: seq<Status>)
    ensures forall s :: s in r <==> exists i :: 0 <= i < |rows| && s in Keys(rows[i].1)
  {
    if rows == [] then []
    else
      var rest := ConcatKeys(rows[1..]);
      assert forall i :: 1 <= i < |rows| ==> rows[i] == rows[1..][i - 1];
      Keys(rows[0].1) + rest
  }

  /**
   * `getAllowedStatusTransitions`: for Manager, the source statuses of every row;
   * for an unknown role, nothing; otherwise the row's targets for the current status.
   */
  function GetAllowedStatusTransitions(role: string, current: Status): (r: seq<Status>)
    ensures role == MANAGER ==> r == ConcatKeys(TRANSITIONS)
    ensures role !in {MANAGER, FRONT_DESK, TECHNICIAN} ==> r == []
  {
    if role == MANAGER then ConcatKeys(TRANSITIONS)
    else
      LookupMeaning(TRANSITIONS, role);
      match Lookup(TRANSITIONS, role)
      case None => []
      case Some(row) => Lookup(row, current).GetOr([])
  }

  /**
   * The Manager list is the same for every current status: the ten row keys in
   * table order, duplicates included.
   */
  lemma ManagerList(current: Status)
    ensures GetAllowedStatusTransitions(MANAGER, current) ==
      [Completed, ReadyForPickup, Pending, InProgress, AwaitingParts, ReadyForQC,
       Pending, InProgress, AwaitingParts, ReadyForQC]
  {
    var t := TRANSITIONS;
    assert Keys(t[0].1) == [Completed, ReadyForPickup, Pending, InProgress, AwaitingParts, ReadyForQC];
    assert Keys(t[1].1) == [Pending, InProgress, AwaitingParts];
    assert Keys(t[2].1) == [ReadyForQC];
    assert ConcatKeys(t[3..]) == [];
    assert ConcatKeys(t[2..]) == Keys(t[2].1) + ConcatKeys(t[2..][1..]) && t[2..][1..] == t[3..];
    assert ConcatKeys(t[1..]) == Keys(t[1].1) + ConcatKeys(t[1..][1..]) && t[1..][1..] == t[2..];
    assert ConcatKeys(t) == Keys(t[0].1) + ConcatKeys(t[1..]);
  }

  /**
   * The Manager list holds source statuses, not targets: it repeats entries and never
   * offers Cancelled, Picked Up or Terminated.
   */
  lemma ManagerListIsNotTargets(current: Status)
    ensures var l := GetAllowedStatusTransitions(MANAGER, current);
      |l| > 6 && l[2] == l[6] && Cancelled !in l && PickedUp !in l && Terminated !in l
  {
    ManagerList(current);
    var l := GetAllowedStatusTransitions(MANAGER, current);
    assert l[2] == l[6];
  }

  /** The Front Desk offers as a set of moves. */
  predicate FrontDeskOffer(current: Status, next: Status) {
    || (current == Completed && next == ReadyForPickup)
    || (current == ReadyForPickup && next == PickedUp)
    || (current in {Pending, InProgress, AwaitingParts, ReadyForQC} && next == Cancelled)
  }

  /** The Technician offers as a set of moves. */
  predicate TechnicianOffer(current: Status, next: Status) {
    || (current == Pending && next == InProgress)
    || (current == InProgress && next in {AwaitingParts, ReadyForQC})
    || (current == AwaitingParts && next == InProgress)
  }

  lemma FrontDeskRowExact(current: Status, next: Status)
    ensures next in GetAllowedStatusTransitions(FRONT_DESK, current) <==> FrontDeskOffer(current, next)
  {
    assert Lookup(TRANSITIONS, FRONT_DESK) == Some(TRANSITIONS[0].1);
  }

  lemma TechnicianRowExact(current: Status, next: Status)
    ensures next in GetAllowedStatusTransitions(TECHNICIAN, current) <==> TechnicianOffer(current, next)
  {
    assert Lookup(TRANSITIONS, TECHNICIAN) == Some(TRANSITIONS[1].1);
  }

  /** A known non-Manager role offers nothing from a status its row does not list. */
  lemma UnlistedStatusOffersNothing(role: string, current: Status)
    requires role in {FRONT_DESK, TECHNICIAN}
    requires current in {Terminated, Cancelled, PickedUp}
    ensures GetAllowedStatusTransitions(role, current) == []
  {
    if role == FRONT_DESK {
      assert Lookup(TRANSITIONS, role) == Some(TRANSITIONS[0].1);
    } else {
      assert Lookup(TRANSITIONS, role) == Some(TRANSITIONS[1].1);
    }
  }

  /**
   * The two tables disagree. The frontend offers a Technician In Progress → Ready for QC
   * and a Front Desk Pending → Cancelled, which the backend refuses; the backend lets a
   * Technician move In Progress → Completed and the Front Desk move Pending → Terminated,
   * which the frontend never offers.
   */
  lemma TablesDisagree(tech: User, desk: User)
    requires tech.role == TECHNICIAN && !tech.isSuperuser
    requires desk.role == FRONT_DESK && !desk.isSuperuser
    ensures ReadyForQC in GetAllowedStatusTransitions(TECHNICIAN, InProgress)
      && !StatusTransitions.CanTransition(tech, InProgress, ReadyForQC)
    ensures Cancelled in GetAllowedStatusTransitions(FRONT_DESK, Pending)
      && !StatusTransitions.CanTransition(desk, Pending, Cancelled)
    ensures Completed !in GetAllowedStatusTransitions(TECHNICIAN, InProgress)
      && StatusTransitions.CanTransition(tech, InProgress, Completed)
    ensures Terminated !in GetAllowedStatusTransitions(FRONT_DESK, Pending)
      && StatusTransitions.CanTransition(desk, Pending, Terminated)
  {
    TechnicianRowExact(InProgress, ReadyForQC);
    TechnicianRowExact(InProgress, Completed);
    FrontDeskRowExact(Pending, Cancelled);
    FrontDeskRowExact(Pending, Terminated);
    StatusTransitions.TechnicianRowExact(tech, InProgress, ReadyForQC);
    StatusTransitions.TechnicianRowExact(tech, InProgress, Completed);
    StatusTransitions.FrontDeskRowExact(desk, Pending, Cancelled);
    StatusTransitions.FrontDeskRowExact(desk, Pending, Terminated);
  }
}
