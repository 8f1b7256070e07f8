/**
 * The task seeder: month-prefixed task IDs that never collide with the IDs already
 * in use, the activity timeline written for each seeded task, and the seeded task
 * row itself. Random draws are parameters; activity times are minutes.
 */
module TaskSeeders {
  import opened Basics
  import opened Text
  import opened TaskModels

  // ----- Task IDs -----

  /** The year the letter 'A' stands for. */
  const FIRST_YEAR: int := 2023

  /** Years whose letter `chr` can produce (below the surrogate range). */
  predicate LetterOk(year: int) {
    0 <= 65 + year - FIRST_YEAR < 0xD800
  }

  /** The year letter followed by the month padded to two digits: "C01", ..., "C12". */
  function SeederPrefix(year: int, month: nat): (p: string)
    requires LetterOk(year)
    ensures |p| >= 3 && p[0] as int == 'A' as int + year - FIRST_YEAR && p[1..] == ZeroPad(month, 2)
  {
    [(65 + year - FIRST_YEAR) as char] + ZeroPad(month, 2)
  }

  /**
   * The number `int(task_id.split('-')[1])` of an ID that starts with `prefix`;
   * `None` for another prefix, or where the split or `int` raises and the ID is skipped.
   */
  function SeqIn(id: string, prefix: string): Option<nat> {
    if !StartsWith(id, prefix) then None
    else
      var parts := Split(id, '-');
      if |parts| < 2 then None else ParseNat(parts[1])
  }

  /** The greatest number any ID of the set carries under `prefix` (0 when none does). */
  ghost function MaxSeqIn(ids: set<string>, prefix: string): (m: nat)
    ensures forall x :: x in ids && SeqIn(x, prefix).Some? ==> SeqIn(x, prefix).value <= m
    ensures m == 0 || exists x :: x in ids && SeqIn(x, prefix) == Some(m)
    decreases ids
  {
    if ids == {} then 0
    else
      var x :| x in ids;
      var rest := MaxSeqIn(ids - {x}, prefix);
      match SeqIn(x, prefix)
      case Some(n) => if n > rest then n else rest
      case None => rest
  }

  /** Adding one ID raises the maximum to that ID's number when it is greater. */
  lemma MaxSeqInInsert(ids: set<string>, y: string, prefix: string)
    ensures MaxSeqIn(ids + {y}, prefix) ==
      match SeqIn(y, prefix)
      case Some(n) => if n > MaxSeqIn(ids, prefix) then n else MaxSeqIn(ids, prefix)
      case None => MaxSeqIn(ids, prefix)
  {
    var m := MaxSeqIn(ids + {y}, prefix);
    var a := MaxSeqIn(ids, prefix);
    if a != 0 {
      var x :| x in ids && SeqIn(x, prefix) == Some(a);
      assert x in ids + {y};
    }
    if m != 0 {
      var x :| x in ids + {y} && SeqIn(x, prefix) == Some(m);
      if x != y { assert x in ids; }
    }
    assert y in ids + {y};
  }

  /** The ID with number `n` under `prefix`: the number padded to three digits after a dash. */
  function IdOf(prefix: string, n: nat): string {
    prefix + "-" + ZeroPad(n, 3)
  }

  /**
   * `generate_unique_task_id`: one more than the greatest number used under the
   * month prefix, padded to three digits. The result is new unless the year letter is
   * itself a dash (the year 2003), which breaks the split.
   */
  method GenerateUniqueTaskId(year: int, month: nat, existing: set<string>) returns (id: string)
    requires LetterOk(year) && 1 <= month <= 12
    ensures id == IdOf(SeederPrefix(year, month), MaxSeqIn(existing, SeederPrefix(year, month)) + 1)
    ensures year != 2003 ==> id !in existing
    ensures year != 2003 ==> SeqIn(id, SeederPrefix(year, month)) == Some(MaxSeqIn(existing, SeederPrefix(year, month)) + 1)
  {
    var prefix := SeederPrefix(year, month);
    var maxSeq := HighestNumber(existing, prefix);
    id := IdOf(prefix, maxSeq + 1);
    if year != 2003 {
      NewIdNumber(year, month, maxSeq + 1);
      AboveMaximumIsNew(existing, prefix, id);
    }
  }

  /** The loop over the IDs in use: the greatest number under `prefix`, 0 when there is none. */
  method HighestNumber(existing: set<string>, prefix: string) returns (maxSeq: nat)
    ensures maxSeq == MaxSeqIn(existing, prefix)
  {
    maxSeq := 0;
    var rest := existing;
    ghost var seen: set<string> := {};
    while rest != {}
      invariant rest !! seen && rest + seen == existing
      invariant maxSeq == MaxSeqIn(seen, prefix)
      decreases rest
    {
      var x :| x in rest;
      MaxSeqInInsert(seen, x, prefix);
      var n := SeqIn(x, prefix);
      if n.Some? && n.value > maxSeq {
        maxSeq := n.value;
      }
      rest := rest - {x};
      seen := seen + {x};
    }
    assert seen == existing;
  }

  /** An ID whose number exceeds every number under its prefix is not in the set. */
  lemma AboveMaximumIsNew(ids: set<string>, prefix: string, id: string)
    requires SeqIn(id, prefix) == Some(MaxSeqIn(ids, prefix) + 1)
    ensures id !in ids
  {
  }

  /** The number read back from a freshly built ID is the number written into it. */
  lemma NewIdNumber(year: int, month: nat, n: nat)
    requires LetterOk(year) && year != 2003 && n > 0
    ensures SeqIn(IdOf(SeederPrefix(year, month), n), SeederPrefix(year, month)) == Some(n)
  {
    var prefix := SeederPrefix(year, month);
    var digits := ZeroPad(n, 3);
    assert '-' !in prefix by {
      assert prefix[0] != '-';
      forall i | 1 <= i < |prefix| ensures prefix[i] != '-' {
        assert prefix[i] == prefix[1..][i - 1];
      }
    }
    assert '-' !in digits by {
      forall i | 0 <= i < |digits| ensures digits[i] != '-' { assert IsDigit(digits[i]); }
    }
    SplitJoin(prefix, '-', digits);
    SplitNoSep(digits, '-');
    ZeroPadValue(n, 3);
    var id := IdOf(prefix, n);
    assert id[..|prefix|] == prefix;
    assert Split(id, '-') == [prefix, digits];
  }

  /**
   * With the generated ID added to the set, the next ID of the same month carries the
   * next number: successive IDs of one month strictly increase.
   */
  lemma NextIdAdvances(year: int, month: nat, existing: set<string>)
    requires LetterOk(year) && year != 2003
    ensures var prefix := SeederPrefix(year, month);
      var id := IdOf(prefix, MaxSeqIn(existing, prefix) + 1);
      MaxSeqIn(existing + {id}, prefix) == MaxSeqIn(existing, prefix) + 1
  {
    var prefix := SeederPrefix(year, month);
    var id := IdOf(prefix, MaxSeqIn(existing, prefix) + 1);
    NewIdNumber(year, month, MaxSeqIn(existing, prefix) + 1);
    MaxSeqInInsert(existing, id, prefix);
  }

  /**
   * The loop of `seed_tasks` for one month: each ID is generated from the set and then
   * added to it, so the IDs are new and pairwise different.
   */
  method SeedMonthIds(year: int, month: nat, existing: set<string>, count: nat)
    returns (ids: seq<string>, after: set<string>)
    requires LetterOk(year) && year != 2003 && 1 <= month <= 12
    ensures |ids| == count
    ensures forall i :: 0 <= i < count ==> ids[i] !in existing
    ensures Distinct(ids)
    ensures after == existing + Elements(ids)
  {
    ids := [];
    after := existing;
    while |ids| < count
      invariant |ids| <= count
      invariant after == existing + Elements(ids)
      invariant forall i :: 0 <= i < |ids| ==> ids[i] !in existing
      invariant Distinct(ids)
    {
      var id := GenerateUniqueTaskId(year, month, after);
      MonthIdStep(existing, ids, id);
      ids := ids + [id];
      after := after + {id};
    }
  }

  /** One round of the month loop keeps its invariants. */
  lemma MonthIdStep(existing: set<string>, ids: seq<string>, id: string)
    requires Distinct(ids) && id !in existing + Elements(ids)
    ensures Distinct(ids + [id])
    ensures existing + Elements(ids) + {id} == existing + Elements(ids + [id])
  {
    assert (ids + [id])[..|ids|] == ids;
  }

  /** The IDs of a list, as a set. */
  function Elements(ids: seq<string>): (s: set<string>)
    ensures forall x :: x in s <==> x in ids
  {
    if ids == [] then {} else Elements(ids[..|ids| - 1]) + {ids[|ids| - 1]}
  }

  /**
   * The dash in the year letter of 2003 makes the number read back the month, so an ID
   * already present is generated again.
   */
  lemma Year2003Repeats()
    ensures SeederPrefix(2003, 1) == "-01"
    ensures SeqIn("-01-002", "-01") == Some(1)
  {
    MonthOnePadded();
    SplitOfRepeatedId();
    assert "-01-002"[..3] == "-01";
    assert DigitsValue("01") == 1 by {
      assert "01"[..1] == "0";
    }
  }

  lemma MonthOnePadded()
    ensures ZeroPad(1, 2) == "01"
  {
    assert NatToString(1) == "1";
    assert Zeros(1) == "0";
  }

  lemma SplitOfRepeatedId()
    ensures |Split("-01-002", '-')| >= 2 && Split("-01-002", '-')[1] == "01"
  {
    assert "-01-002" == [] + "-" + "01-002";
    SplitJoin([], '-', "01-002");
    assert "01-002" == "01" + "-" + "002";
    SplitJoin("01", '-', "002");
    SplitNoSep("002", '-');
  }

  // ----- Activities -----

  /** A seeded activity: the `TaskActivity` fields with a time in minutes. */
  datatype Stamped = Stamped(kind: ActivityType, user: nat, at: int, message: string)

  /**
   * The random draws of `create_task_activities`: two distinct progress notes with
   * their gaps in hours, the days-later pickup gap, and an optional customer contact
   * (gap in hours and channel).
   */
  datatype Draws = Draws(noteGaps: seq<int>, notes: seq<string>, pickupGap: int, contact: Option<(int, string)>)

  predicate DrawsOk(d: Draws) {
    && |d.noteGaps| == 2 && |d.notes| == 2 && d.notes[0] != d.notes[1]
    && (forall i :: 0 <= i < 2 ==> 4 <= d.noteGaps[i] <= 24)
    && 24 <= d.pickupGap <= 72
    && (d.contact.Some? ==> 1 <= d.contact.value.0 <= 12)
  }

  function Kinds(acts: seq<Stamped>): (r: seq<ActivityType>)
    ensures |r| == |acts|
    ensures forall i {:trigger r[i]} :: 0 <= i < |acts| ==> r[i] == acts[i].kind
  {
    if acts == [] then [] else Kinds(acts[..|acts| - 1]) + [acts[|acts| - 1].kind]
  }

  lemma KindsAppend(a: seq<Stamped>, b: seq<Stamped>)
    ensures Kinds(a + b) == Kinds(a) + Kinds(b)
  {
    assert forall i :: 0 <= i < |a + b| ==> Kinds(a + b)[i] == (Kinds(a) + Kinds(b))[i];
  }

  /** Each activity strictly later than the one before. */
  predicate Increasing(acts: seq<Stamped>) {
    forall i, j :: 0 <= i < j < |acts| ==> acts[i].at < acts[j].at
  }

  /** Every activity strictly later than `t`. */
  predicate After(acts: seq<Stamped>, t: int) {
    forall i :: 0 <= i < |acts| ==> acts[i].at > t
  }

  /** The time of the last activity, or `t` when there is none. */
  function LastAt(acts: seq<Stamped>, t: int): int {
    if acts == [] then t else acts[|acts| - 1].at
  }

  /** Appending later activities keeps the timeline increasing. */
  lemma Join(a: seq<Stamped>, b: seq<Stamped>, t: int)
    requires Increasing(a) && Increasing(b) && After(b, t)
    requires a == [] || a[|a| - 1].at <= t
    ensures Increasing(a + b)
    ensures LastAt(a + b, t) == LastAt(b, LastAt(a, t))
  {
    forall i, j | 0 <= i < j < |a + b| ensures (a + b)[i].at < (a + b)[j].at {
      if i < |a| && j >= |a| {
        assert a[i].at <= a[|a| - 1].at;
      }
    }
  }

  /** The fixed messages of the status steps. */
  const DIAGNOSTIC_DONE: string := "Comprehensive diagnostic completed, repair plan established."
  const REPAIRS_DONE: string := "All repairs completed, running final tests and quality checks."
  const MARKED_COMPLETED: string := "Task marked as completed, ready for customer notification."
  const REPAIR_SUCCEEDED: string := "Repair completed successfully, device fully functional."
  const APPROVED_READY: string := "Device approved and marked ready for customer pickup."
  const REPAIR_TESTED: string := "Repair completed, device tested and ready for customer."
  const MARKED_READY: string := "Device marked as ready for pickup, customer notified."

  /** The message pieces around the names a message carries. */
  const ASSIGNED_TO: string := "Task created and assigned to "
  const DIAGNOSIS_BY: string := "Initial diagnosis started by "
  const NOTES_ADDED: string := "Device notes added: "
  const PICKED_UP_BY: string := "Device picked up by customer "
  const PAYMENT_STATUS_IS: string := ". Payment status: "
  const CONTACTED_VIA: string := "Customer contacted via "
  const WITH_UPDATE: string := " with status update."

  function PickupMessage(customerName: string, paymentStatus: PaymentStatus): string {
    PICKED_UP_BY + customerName + PAYMENT_STATUS_IS + paymentStatus.Label() + "."
  }

  /** The activity kinds each status adds after intake and the device note. */
  function StatusKinds(s: Status): seq<ActivityType> {
    match s
    case InProgress => [Diagnosis, Note, Note]
    case Completed => [Diagnosis, Note, StatusUpdate]
    case ReadyForPickup => [Note, Ready]
    case PickedUp => [Note, Ready, PickedUpActivity]
    case _ => []
  }

  /** The two progress notes of an in-progress task, each some hours after the last. */
  method ProgressNotes(technician: nat, now: int, d: Draws) returns (notes: seq<Stamped>)
    requires DrawsOk(d)
    ensures Kinds(notes) == [Note, Note]
    ensures Increasing(notes) && After(notes, now)
    ensures forall i :: 0 <= i < 2 ==> notes[i].message == d.notes[i] && notes[i].user == technician
  {
    notes := [];
    var at := now;
    var i := 0;
    while i < 2
      invariant 0 <= i <= 2 && |notes| == i
      invariant Increasing(notes) && After(notes, now) && LastAt(notes, now) == at
      invariant forall k :: 0 <= k < i ==>
        notes[k].kind == Note && notes[k].message == d.notes[k] && notes[k].user == technician
    {
      at := at + d.noteGaps[i] * 60;
      notes := notes + [Stamped(Note, technician, at, d.notes[i])];
      i := i + 1;
    }
  }

  /**
   * The steps a task's status adds, from `now` on, with the times the source gives
   * them; `end` is the time of the last one.
   */
  method StatusSteps(
    status: Status, paymentStatus: PaymentStatus, creator: nat, technician: nat, name: string,
    customerName: string, now: int, d: Draws)
    returns (steps: seq<Stamped>, end: int)
    requires DrawsOk(d)
    ensures Kinds(steps) == StatusKinds(status)
    ensures Increasing(steps) && After(steps, now) && end == LastAt(steps, now)
    ensures status == PickedUp ==>
      steps[2].message == PickupMessage(customerName, paymentStatus) && steps[2].at - steps[1].at == d.pickupGap * 60
  {
    if status == InProgress {
      var a := Stamped(Diagnosis, technician, now + 120, DIAGNOSIS_BY + name + ".");
      var notes := ProgressNotes(technician, now + 120, d);
      Join([a], notes, now + 120);
      KindsAppend([a], notes);
      steps := [a] + notes;
      assert Kinds(steps) == StatusKinds(status);
    } else if status == Completed {
      var a := Stamped(Diagnosis, technician, now + 240, DIAGNOSTIC_DONE);
      var b := Stamped(Note, technician, now + 720, REPAIRS_DONE);
      var c := Stamped(StatusUpdate, technician, now + 840, MARKED_COMPLETED);
      ThreeSteps(a, b, c, now);
      steps := [a, b, c];
      assert Kinds(steps) == StatusKinds(status);
    } else if status == ReadyForPickup {
      var a := Stamped(Note, technician, now + 360, REPAIR_SUCCEEDED);
      var b := Stamped(Ready, creator, now + 420, APPROVED_READY);
      TwoSteps(a, b, now);
      steps := [a, b];
      assert Kinds(steps) == StatusKinds(status);
    } else if status == PickedUp {
      var a := Stamped(Note, technician, now + 480, REPAIR_TESTED);
      var b := Stamped(Ready, creator, now + 600, MARKED_READY);
      var c := Stamped(PickedUpActivity, creator, now + 600 + d.pickupGap * 60,
        PickupMessage(customerName, paymentStatus));
      ThreeSteps(a, b, c, now);
      steps := [a, b, c];
      assert Kinds(steps) == StatusKinds(status);
    } else {
      steps := [];
    }
    end := LastAt(steps, now);
  }

  /** Two activities in time order after `t`. */
  lemma TwoSteps(a: Stamped, b: Stamped, t: int)
    requires t < a.at < b.at
    ensures Increasing([a, b]) && After([a, b], t) && LastAt([a, b], t) == b.at
    ensures Kinds([a, b]) == [a.kind, b.kind]
  {
  }

  /** Three activities in time order after `t`. */
  lemma ThreeSteps(a: Stamped, b: Stamped, c: Stamped, t: int)
    requires t < a.at < b.at < c.at
    ensures Increasing([a, b, c]) && After([a, b, c], t) && LastAt([a, b, c], t) == c.at
    ensures Kinds([a, b, c]) == [a.kind, b.kind, c.kind]
  {
  }

  /** The intake message names the technician; their full name is never empty. */
  function IntakeMessage(technician: User): string {
    ASSIGNED_TO + technician.FullName() + "."
  }

  /** The intake at creation time and, when there are device notes, a note ten minutes on. */
  method IntakePart(creator: nat, technician: User, deviceNotes: string, created: int)
    returns (intake: seq<Stamped>, now: int)
    ensures intake != [] && intake[0] == Stamped(Intake, creator, created, IntakeMessage(technician))
    ensures Kinds(intake) == [Intake] + (if deviceNotes != "" then [DeviceNote] else [])
    ensures Increasing(intake) && intake[|intake| - 1].at == now
  {
    now := created;
    var name := if technician.FullName() != "" then technician.FullName() else technician.username;
    assert name == technician.FullName() by { assert technician.FullName()[|technician.firstName|] == ' '; }
    intake := [Stamped(Intake, creator, now, ASSIGNED_TO + name + ".")];
    if deviceNotes != "" {
      now := now + 10;
      intake := intake + [Stamped(DeviceNote, creator, now, NOTES_ADDED + deviceNotes)];
    }
  }

  /** The customer contact some hours after `end`, when one was drawn. */
  method ContactPart(creator: nat, end: int, d: Draws) returns (contact: seq<Stamped>)
    requires DrawsOk(d)
    ensures Kinds(contact) == (if d.contact.Some? then [CustomerContact] else [])
    ensures Increasing(contact) && After(contact, end)
  {
    contact := [];
    if d.contact.Some? {
      var (gap, channel) := d.contact.value;
      contact := [Stamped(CustomerContact, creator, end + gap * 60, CONTACTED_VIA + channel + WITH_UPDATE)];
    }
  }

  /**
   * The pickup is the last activity but for the contact: it carries `message` and
   * comes one to three days after the activity before it.
   */
  predicate PickupLast(acts: seq<Stamped>, contacted: bool, message: string) {
    var p := |acts| - 1 - (if contacted then 1 else 0);
    && 0 < p < |acts|
    && acts[p].message == message
    && 24 * 60 <= acts[p].at - acts[p - 1].at <= 72 * 60
  }

  /**
   * `create_task_activities`: intake at creation time, a device note ten minutes later
   * when there are notes, the steps of the task's status, and maybe a customer
   * contact; each step strictly later than the one before.
   */
  method CreateTaskActivities(
    status: Status, paymentStatus: PaymentStatus, creator: nat, technician: User, customerName: string,
    deviceNotes: string, created: int, d: Draws)
    returns (acts: seq<Stamped>)
    requires DrawsOk(d)
    ensures acts != [] && acts[0] == Stamped(Intake, creator, created, IntakeMessage(technician))
    ensures Increasing(acts)
    ensures Kinds(acts) == [Intake] + (if deviceNotes != "" then [DeviceNote] else [])
      + StatusKinds(status) + (if d.contact.Some? then [CustomerContact] else [])
    ensures status == PickedUp ==> PickupLast(acts, d.contact.Some?, PickupMessage(customerName, paymentStatus))
  {
    var intake, now := IntakePart(creator, technician, deviceNotes, created);
    var name := technician.FullName();
    var steps, end := StatusSteps(status, paymentStatus, creator, technician.id, name, customerName, now, d);
    var contact := ContactPart(creator, end, d);
    acts := intake + steps + contact;
    Assemble(intake, steps, contact, now, end, deviceNotes != "", status, d.contact.Some?,
      PickupMessage(customerName, paymentStatus));
  }

  /**
   * The intake part, the status steps and the contact part put together keep the
   * intake first, stay increasing and have the kinds of the three parts in order.
   */
  lemma Assemble(
    intake: seq<Stamped>, steps: seq<Stamped>, contact: seq<Stamped>, now: int, end: int,
    noted: bool, status: Status, contacted: bool, pickup: string)
    requires Increasing(intake) && intake != [] && intake[|intake| - 1].at <= now
    requires Increasing(steps) && After(steps, now) && end == LastAt(steps, now)
    requires Increasing(contact) && After(contact, end)
    requires Kinds(intake) == [Intake] + (if noted then [DeviceNote] else [])
    requires Kinds(steps) == StatusKinds(status)
    requires Kinds(contact) == (if contacted then [CustomerContact] else [])
    requires status == PickedUp ==> |steps| == 3 && steps[2].message == pickup && 24 * 60 <= steps[2].at - steps[1].at <= 72 * 60
    ensures (intake + steps + contact)[0] == intake[0]
    ensures Increasing(intake + steps + contact)
    ensures Kinds(intake + steps + contact) == [Intake] + (if noted then [DeviceNote] else [])
      + StatusKinds(status) + (if contacted then [CustomerContact] else [])
    ensures status == PickedUp ==> PickupLast(intake + steps + contact, contacted, pickup)
  {
    AssembledIncreasing(intake, steps, contact, now, end);
    AssembledKinds(intake, steps, contact, noted, status, contacted);
    if status == PickedUp {
      assert |contact| == |Kinds(contact)|;
      PickupPlaced(intake, steps, contact, contacted, pickup);
    }
  }

  /** The intake part, the status steps and the contact part put together stay increasing. */
  lemma AssembledIncreasing(intake: seq<Stamped>, steps: seq<Stamped>, contact: seq<Stamped>, now: int, end: int)
    requires Increasing(intake) && intake != [] && intake[|intake| - 1].at <= now
    requires Increasing(steps) && After(steps, now) && end == LastAt(steps, now)
    requires Increasing(contact) && After(contact, end)
    ensures Increasing(intake + steps + contact)
  {
    Join(intake, steps, now);
    Join(intake + steps, contact, end);
  }

  /** The kinds of the three parts put together are the three kind lists in order. */
  lemma AssembledKinds(
    intake: seq<Stamped>, steps: seq<Stamped>, contact: seq<Stamped>,
    noted: bool, status: Status, contacted: bool)
    requires Kinds(intake) == [Intake] + (if noted then [DeviceNote] else [])
    requires Kinds(steps) == StatusKinds(status)
    requires Kinds(contact) == (if contacted then [CustomerContact] else [])
    ensures Kinds(intake + steps + contact) == [Intake] + (if noted then [DeviceNote] else [])
      + StatusKinds(status) + (if contacted then [CustomerContact] else [])
  {
    KindsAppend(intake, steps);
    KindsAppend(intake + steps, contact);
  }

  /** The third status step lands just before the optional contact. */
  lemma PickupPlaced(intake: seq<Stamped>, steps: seq<Stamped>, contact: seq<Stamped>, contacted: bool, pickup: string)
    requires intake != [] && |steps| == 3 && |contact| == (if contacted then 1 else 0)
    requires steps[2].message == pickup && 24 * 60 <= steps[2].at - steps[1].at <= 72 * 60
    ensures PickupLast(intake + steps + contact, contacted, pickup)
  {
    var acts := intake + steps + contact;
    assert acts[|intake| + 1] == steps[1] && acts[|intake| + 2] == steps[2];
  }

  // ----- The seeded task row -----

  /** The whole-dollar totals a seeded task is given. */
  const COST_RANGES: seq<nat> := [50, 75, 100, 125, 150, 175, 200, 225, 250, 275, 300, 350, 400, 450, 500]

  /** `calculate_partial_payment`: 25, 50 or 75 per cent of the total, in whole dollars. */
  function PartialPayment(totalDollars: nat, percentage: nat): (dollars: nat)
    requires percentage in {25, 50, 75}
    ensures totalDollars >= 4 ==> 0 < dollars < totalDollars
  {
    HalfEven(totalDollars * percentage, 100)
  }

  /**
   * The paid amount a seeded task starts with, in cents: all of it when Fully Paid,
   * the partial payment when Partially Paid, nothing when Unpaid.
   */
  function SeedPaid(totalDollars: nat, status: PaymentStatus, percentage: nat): (cents: int)
    requires status != Refunded && percentage in {25, 50, 75}
  {
    if status == FullyPaid then totalDollars * 100
    else if status == PartiallyPaid then PartialPayment(totalDollars, percentage) * 100
    else 0
  }

  /**
   * The seeded payment status is the one the paid amount and the total would be
   * classified as: the seeder never writes an inconsistent pair.
   */
  lemma SeededStatusConsistent(totalDollars: nat, status: PaymentStatus, percentage: nat)
    requires totalDollars in COST_RANGES && status != Refunded && percentage in {25, 50, 75}
    ensures ClassifyPayment(SeedPaid(totalDollars, status, percentage), totalDollars * 100) == status
    ensures 0 <= SeedPaid(totalDollars, status, percentage) <= totalDollars * 100
  {
  }

  /** A location row the seeder picks: its id and its name. */
  datatype SeedLocation = SeedLocation(id: nat, name: string)

  /**
   * The random draws for one seeded task row; `toWorkshop` is the draw that decides
   * whether the picked location is also written as the workshop location.
   */
  datatype TaskDraws = TaskDraws(
    customer: nat, technician: nat, laptopModel: string, urgency: string,
    status: Status, paymentStatus: PaymentStatus, totalDollars: nat, percentage: nat,
    location: Option<SeedLocation>, workshopStatus: Option<WorkshopStatus>, toWorkshop: bool)

  /**
   * The task row `seed_tasks` creates: estimate and total both the drawn total, the
   * paid amount that goes with the drawn payment status, intake on the creation day,
   * "Main Workshop" without a location, the same location (if any) as workshop
   * location when that draw says so, and a debt exactly when a task was picked up
   * without being fully paid.
   */
  function SeedTask(id: string, created: int, d: TaskDraws): (t: Task)
    requires d.paymentStatus != Refunded && d.percentage in {25, 50, 75}
    ensures t.isDebt <==> t.status == PickedUp && t.paymentStatus != FullyPaid
    ensures t.title == id && t.assignedTo == Some(d.technician) && t.createdAt == created
    ensures t.estimatedCost == t.totalCost == Some(d.totalDollars * 100)
    ensures t.paidAmount == SeedPaid(d.totalDollars, d.paymentStatus, d.percentage)
    ensures t.currentLocation == (if d.location.Some? then d.location.value.name else "Main Workshop")
    ensures t.workshopLocation.Some? <==> d.toWorkshop && d.location.Some?
    ensures t.workshopLocation.Some? ==> t.workshopLocation.value == d.location.value.id
    ensures t.dateIn == Some(created) && t.dateOut.None?
  {
    Task(
      title := id, customer := d.customer, laptopModel := d.laptopModel, status := d.status,
      urgency := d.urgency, currentLocation := if d.location.Some? then d.location.value.name else "Main Workshop",
      assignedTo := Some(d.technician), estimatedCost := Some(d.totalDollars * 100),
      totalCost := Some(d.totalDollars * 100),
      paidAmount := SeedPaid(d.totalDollars, d.paymentStatus, d.percentage),
      paymentStatus := d.paymentStatus, paidDate := None, nextPaymentDate := None,
      isDebt := d.paymentStatus != FullyPaid && d.status == PickedUp,
      dateIn := Some(created), dateOut := None, sentOutBy := None,
      workshopStatus := d.workshopStatus, workshopLocation := if d.toWorkshop && d.location.Some? then Some(d.location.value.id) else None,
      workshopTechnician := None, originalLocation := None, originalTechnician := None,
      workshopSentAt := None, workshopReturnedAt := None, createdAt := created)
  }

  /** A seeded debt always has money outstanding on it. */
  lemma SeededDebtIsOwed(id: string, created: int, d: TaskDraws)
    requires d.paymentStatus != Refunded && d.percentage in {25, 50, 75} && d.totalDollars in COST_RANGES
    ensures var t := SeedTask(id, created, d);
      t.isDebt ==> t.paidAmount < t.totalCost.value
  {
  }
}
