/**
 * The customer serializer: the debt flag it reports, the customer and phone rows it
 * creates, and the reconciliation of a customer's phone numbers on update.
 */
module Customers {
  import opened Basics
  import opened TaskModels

  datatype Customer = Customer(id: nat, name: string, address: Option<string>, customerType: string)

  datatype PhoneNumber = PhoneNumber(id: nat, customer: nat, number: string)

  /** One entry of the `phone_numbers` list of an update: an optional id and a number. */
  datatype PhoneEntry = PhoneEntry(id: Option<int>, number: string)

  /** The fields of an update; `None` is a key absent from the data. */
  datatype CustomerChanges = CustomerChanges(
    name: Option<string>, address: Option<Option<string>>, customerType: Option<string>)

  /** `get_has_debt`: some task of the customer is a debt. */
  predicate HasDebt(tasks: map<string, Task>, customer: nat) {
    exists k :: k in tasks && tasks[k].customer == customer && tasks[k].isDebt
  }

  /** The debt flag changes only with the tasks of that customer. */
  lemma HasDebtOnlyOwnTasks(tasks: map<string, Task>, key: string, t: Task, customer: nat)
    requires key in tasks && tasks[key].customer != customer && t.customer != customer
    ensures HasDebt(tasks[key := t], customer) == HasDebt(tasks, customer)
  {
    if HasDebt(tasks, customer) {
      var k :| k in tasks && tasks[k].customer == customer && tasks[k].isDebt;
      assert k != key && k in tasks[key := t];
    }
    if HasDebt(tasks[key := t], customer) {
      var k :| k in tasks[key := t] && tasks[key := t][k].customer == customer && tasks[key := t][k].isDebt;
      assert k != key && k in tasks;
    }
  }

  // ----- Reconciliation of phone numbers -----

  /**
   * The state the update loop works on: the phone table, the ids of the customer's
   * phones not yet claimed by an entry (`existing_phone_numbers`), and the next id.
   */
  datatype Book = Book(phones: map<nat, PhoneNumber>, unclaimed: set<nat>, nextId: nat)

  /** The ids of the customer's phones. */
  function PhonesOf(phones: map<nat, PhoneNumber>, customer: nat): (ids: set<nat>)
    ensures forall k :: k in ids <==> k in phones && phones[k].customer == customer
  {
    set k | k in phones && phones[k].customer == customer
  }

  /** The phone table's ids are below the next id and above zero. */
  predicate Fresh(phones: map<nat, PhoneNumber>, nextId: nat) {
    nextId > 0 && forall k :: k in phones ==> 0 < k < nextId
  }

  /** A phone of the customer already holds `number` (what `get_or_create` looks for). */
  predicate Holds(phones: map<nat, PhoneNumber>, customer: nat, number: string) {
    exists k :: k in phones && phones[k].customer == customer && phones[k].number == number
  }

  /** The ids of the customer's phones holding `number`. */
  function Matching(phones: map<nat, PhoneNumber>, customer: nat, number: string): (ids: set<nat>)
    ensures forall k :: k in ids <==> k in phones && phones[k].customer == customer && phones[k].number == number
  {
    set k | k in phones && phones[k].customer == customer && phones[k].number == number
  }

  /**
   * One entry of the update loop as written: a truthy id of an unclaimed phone updates
   * that phone's number and claims it; another truthy id is ignored; no id means
   * `get_or_create`, which adds a phone only when none of the customer's holds the number.
   */
  function Step(b: Book, customer: nat, e: PhoneEntry): (r: Book)
    ensures r.unclaimed <= b.unclaimed && b.phones.Keys <= r.phones.Keys && r.nextId >= b.nextId
  {
    if e.id.Some? && e.id.value != 0 then
      if e.id.value > 0 && e.id.value as nat in b.unclaimed && e.id.value as nat in b.phones then
        var k := e.id.value as nat;
        Book(b.phones[k := b.phones[k].(number := e.number)], b.unclaimed - {k}, b.nextId)
      else b
    else if Holds(b.phones, customer, e.number) then b
    else Book(b.phones[b.nextId := PhoneNumber(b.nextId, customer, e.number)], b.unclaimed, b.nextId + 1)
  }

  /** The loop over the entries, in order. */
  function Run(b: Book, customer: nat, entries: seq<PhoneEntry>): (r: Book)
    ensures r.unclaimed <= b.unclaimed && b.phones.Keys <= r.phones.Keys && r.nextId >= b.nextId
  {
    if entries == [] then b
    else Step(Run(b, customer, entries[..|entries| - 1]), customer, entries[|entries| - 1])
  }

  /** The start of the loop: every phone of the customer unclaimed. */
  function Start(phones: map<nat, PhoneNumber>, customer: nat, nextId: nat): Book {
    Book(phones, PhonesOf(phones, customer), nextId)
  }

  /** After the loop the unclaimed phones are deleted. */
  function Finish(b: Book): (phones: map<nat, PhoneNumber>)
    ensures forall k :: k in phones <==> k in b.phones && k !in b.unclaimed
  {
    b.phones - b.unclaimed
  }

  /** Some entry names phone `k` by id. */
  predicate Named(entries: seq<PhoneEntry>, k: nat) {
    exists i :: 0 <= i < |entries| && entries[i].id == Some(k as int)
  }

  /** The number of the first entry that names phone `k`. */
  ghost function FirstNumber(entries: seq<PhoneEntry>, k: nat): (n: string)
    requires Named(entries, k)
    ensures exists i ::
      && 0 <= i < |entries| && entries[i].id == Some(k as int) && entries[i].number == n
      && forall j :: 0 <= j < i ==> entries[j].id != Some(k as int)
  {
    var init := entries[..|entries| - 1];
    if Named(init, k) then
      var n := FirstNumber(init, k);
      var i :| 0 <= i < |init| && init[i].id == Some(k as int) && init[i].number == n
        && forall j :: 0 <= j < i ==> init[j].id != Some(k as int);
      assert entries[i] == init[i];
      n
    else
      assert forall j :: 0 <= j < |init| ==> entries[j] == init[j];
      entries[|entries| - 1].number
  }

  /**
   * What the loop keeps for a phone `k` the customer had: unclaimed and untouched until
   * an entry names it, then claimed with the first naming entry's number.
   */
  lemma {:induction false} RunTracksExisting(
    phones: map<nat, PhoneNumber>, customer: nat, nextId: nat, entries: seq<PhoneEntry>, k: nat)
    requires Fresh(phones, nextId) && k in PhonesOf(phones, customer)
    ensures var r := Run(Start(phones, customer, nextId), customer, entries);
      && k in r.phones
      && (k in r.unclaimed <==> !Named(entries, k))
      && (!Named(entries, k) ==> r.phones[k] == phones[k])
      && (Named(entries, k) ==> r.phones[k] == phones[k].(number := FirstNumber(entries, k)))
    decreases |entries|
  {
    if entries != [] {
      var init := entries[..|entries| - 1];
      var e := entries[|entries| - 1];
      RunTracksExisting(phones, customer, nextId, init, k);
      RunFresh(phones, customer, nextId, init);
      var b := Run(Start(phones, customer, nextId), customer, init);
      assert Named(entries, k) <==> Named(init, k) || e.id == Some(k as int) by {
        if e.id == Some(k as int) { assert entries[|entries| - 1].id == Some(k as int); }
        if Named(init, k) {
          var i :| 0 <= i < |init| && init[i].id == Some(k as int);
          assert entries[i] == init[i];
        }
        if Named(entries, k) && e.id != Some(k as int) {
          var i :| 0 <= i < |entries| && entries[i].id == Some(k as int);
          assert init[i] == entries[i];
        }
      }
      if Named(init, k) {
        assert FirstNumber(entries, k) == FirstNumber(init, k);
      }
    }
  }

  /** The loop keeps every id below the next id and above zero. */
  lemma {:induction false} RunFresh(phones: map<nat, PhoneNumber>, customer: nat, nextId: nat, entries: seq<PhoneEntry>)
    requires Fresh(phones, nextId)
    ensures var r := Run(Start(phones, customer, nextId), customer, entries);
      Fresh(r.phones, r.nextId) && r.unclaimed <= PhonesOf(phones, customer)
    decreases |entries|
  {
    if entries != [] {
      RunFresh(phones, customer, nextId, entries[..|entries| - 1]);
    }
  }

  /**
   * After the update a phone the customer had survives exactly when an entry names it
   * by id, and then carries the number of the first entry that does.
   */
  lemma ExistingPhonesAfterUpdate(
    phones: map<nat, PhoneNumber>, customer: nat, nextId: nat, entries: seq<PhoneEntry>, k: nat)
    requires Fresh(phones, nextId) && k in PhonesOf(phones, customer)
    ensures var after := Finish(Run(Start(phones, customer, nextId), customer, entries));
      && (k in after <==> Named(entries, k))
      && (Named(entries, k) ==> after[k] == phones[k].(number := FirstNumber(entries, k)))
  {
    RunTracksExisting(phones, customer, nextId, entries, k);
  }

  /** `get_or_create` never adds a second phone of the customer with a number it already holds. */
  lemma GetOrCreateNoDuplicate(b: Book, customer: nat, number: string)
    requires Holds(b.phones, customer, number)
    ensures Step(b, customer, PhoneEntry(None, number)) == b
  {
  }

  /**
   * The customer's one phone "555" re-sent without its id: `get_or_create` finds it,
   * leaves it unclaimed, and the clean-up deletes it; the customer is left with no phone.
   */
  lemma ResentNumberDeleted()
    ensures var phones := map[1 := PhoneNumber(1, 7, "555")];
      var after := Finish(Run(Start(phones, 7, 2), 7, [PhoneEntry(None, "555")]));
      PhonesOf(after, 7) == {}
  {
    var phones := map[1 := PhoneNumber(1, 7, "555")];
    var b := Start(phones, 7, 2);
    assert PhonesOf(phones, 7) == {1};
    assert Holds(b.phones, 7, "555") by { assert 1 in b.phones; }
    var entries := [PhoneEntry(None, "555")];
    assert entries[..0] == [];
    assert Run(b, 7, entries) == b;
  }

  /**
   * One entry with `get_or_create` claiming the phones it matches, as evidently meant:
   * a number re-sent without its id is kept rather than deleted.
   */
  function StepKeeping(b: Book, customer: nat, e: PhoneEntry): (r: Book)
    ensures r.unclaimed <= b.unclaimed && b.phones.Keys <= r.phones.Keys && r.nextId >= b.nextId
  {
    if e.id.Some? && e.id.value != 0 then Step(b, customer, e)
    else if Holds(b.phones, customer, e.number) then
      Book(b.phones, b.unclaimed - Matching(b.phones, customer, e.number), b.nextId)
    else Step(b, customer, e)
  }

  function RunKeeping(b: Book, customer: nat, entries: seq<PhoneEntry>): (r: Book)
    ensures r.unclaimed <= b.unclaimed && b.phones.Keys <= r.phones.Keys && r.nextId >= b.nextId
  {
    if entries == [] then b
    else StepKeeping(RunKeeping(b, customer, entries[..|entries| - 1]), customer, entries[|entries| - 1])
  }

  /** A claimed phone of the customer holding `number`. */
  predicate KeptWith(b: Book, customer: nat, number: string) {
    exists k :: k in b.phones && k !in b.unclaimed && b.phones[k].customer == customer && b.phones[k].number == number
  }

  /** One step keeps every claimed phone as it is. */
  lemma StepKeepingKeeps(b: Book, customer: nat, e: PhoneEntry, number: string)
    requires Fresh(b.phones, b.nextId) && KeptWith(b, customer, number)
    ensures KeptWith(StepKeeping(b, customer, e), customer, number)
  {
    var k :| k in b.phones && k !in b.unclaimed && b.phones[k].customer == customer && b.phones[k].number == number;
    var r := StepKeeping(b, customer, e);
    assert k in r.phones && k !in r.unclaimed && r.phones[k] == b.phones[k];
  }

  /** One step without an id leaves a claimed phone with the entry's number. */
  lemma StepKeepingClaims(b: Book, customer: nat, number: string)
    requires Fresh(b.phones, b.nextId) && b.unclaimed <= b.phones.Keys
    ensures KeptWith(StepKeeping(b, customer, PhoneEntry(None, number)), customer, number)
  {
    var r := StepKeeping(b, customer, PhoneEntry(None, number));
    if Holds(b.phones, customer, number) {
      var k :| k in b.phones && b.phones[k].customer == customer && b.phones[k].number == number;
      assert k in r.phones && k !in r.unclaimed;
    } else {
      assert b.nextId !in b.unclaimed by {
        assert b.nextId !in b.phones;
      }
      assert b.nextId in r.phones && b.nextId !in r.unclaimed;
    }
  }

  /** The corrected loop keeps the table's ids fresh and never unclaims the new ones. */
  lemma {:induction false} RunKeepingFresh(b: Book, customer: nat, entries: seq<PhoneEntry>)
    requires Fresh(b.phones, b.nextId) && b.unclaimed <= b.phones.Keys
    ensures var r := RunKeeping(b, customer, entries);
      Fresh(r.phones, r.nextId) && r.unclaimed <= r.phones.Keys
    decreases |entries|
  {
    if entries != [] {
      RunKeepingFresh(b, customer, entries[..|entries| - 1]);
    }
  }

  /** With the correction every number sent without an id is among the customer's phones afterwards. */
  lemma {:induction false} KeepingKeepsResent(b: Book, customer: nat, entries: seq<PhoneEntry>, i: nat)
    requires Fresh(b.phones, b.nextId) && b.unclaimed <= b.phones.Keys
    requires i < |entries| && entries[i].id.None?
    ensures var after := Finish(RunKeeping(b, customer, entries));
      exists k :: k in after && after[k].customer == customer && after[k].number == entries[i].number
  {
    KeptAfter(b, customer, entries, i);
    var r := RunKeeping(b, customer, entries);
    var k :| k in r.phones && k !in r.unclaimed && r.phones[k].customer == customer && r.phones[k].number == entries[i].number;
    var after := Finish(r);
    assert k in after && after[k] == r.phones[k];
    assert k in after && after[k].customer == customer && after[k].number == entries[i].number;
    assert exists k :: k in after && after[k].customer == customer && after[k].number == entries[i].number;
    assert after == Finish(RunKeeping(b, customer, entries));
  }

  lemma {:induction false} KeptAfter(b: Book, customer: nat, entries: seq<PhoneEntry>, i: nat)
    requires Fresh(b.phones, b.nextId) && b.unclaimed <= b.phones.Keys
    requires i < |entries| && entries[i].id.None?
    ensures KeptWith(RunKeeping(b, customer, entries), customer, entries[i].number)
    decreases |entries|
  {
    var init := entries[..|entries| - 1];
    RunKeepingFresh(b, customer, init);
    if i == |entries| - 1 {
      StepKeepingClaims(RunKeeping(b, customer, init), customer, entries[i].number);
    } else {
      assert init[i] == entries[i];
      KeptAfter(b, customer, init, i);
      StepKeepingKeeps(RunKeeping(b, customer, init), customer, entries[|entries| - 1], entries[i].number);
    }
  }

  // ----- The serializer's writes -----

  /** The customer and phone tables. */
  class CustomerStore {
    var customers: map<nat, Customer>
    var phones: map<nat, PhoneNumber>
    var nextCustomerId: nat
    var nextPhoneId: nat

    predicate Valid()
      reads this
    {
      Fresh(phones, nextPhoneId) && nextCustomerId > 0 && forall k :: k in customers ==> 0 < k < nextCustomerId
    }

    constructor ()
      ensures Valid() && customers == map[] && phones == map[]
    {
      customers := map[];
      phones := map[];
      nextCustomerId := 1;
      nextPhoneId := 1;
    }

    /**
     * `create`: the customer row (address unset and type Normal when not given), then one
     * phone row per entry, in order.
     */
    method Create(name: string, address: Option<string>, customerType: Option<string>, numbers: seq<string>)
      returns (id: nat)
      requires Valid()
      modifies this
      ensures Valid()
      ensures id !in old(customers) && customers == old(customers)[id := Customer(id, name, address, customerType.GetOr("Normal"))]
      ensures nextPhoneId == old(nextPhoneId) + |numbers|
      ensures forall k :: k in phones <==> k in old(phones) || old(nextPhoneId) <= k < nextPhoneId
      ensures forall k :: k in old(phones) ==> phones[k] == old(phones)[k]
      ensures forall i :: 0 <= i < |numbers| ==>
        phones[old(nextPhoneId) + i] == PhoneNumber(old(nextPhoneId) + i, id, numbers[i])
    {
      id := nextCustomerId;
      customers := customers[id := Customer(id, name, address, customerType.GetOr("Normal"))];
      nextCustomerId := nextCustomerId + 1;
      var table: map<nat, PhoneNumber>, next: nat := phones, nextPhoneId;
      for i := 0 to |numbers|
        invariant Fresh(table, next) && next == nextPhoneId + i
        invariant forall k :: k in table <==> k in phones || nextPhoneId <= k < next
        invariant forall k :: k in phones ==> table[k] == phones[k]
        invariant forall j :: 0 <= j < i ==> table[nextPhoneId + j] == PhoneNumber(nextPhoneId + j, id, numbers[j])
      {
        table := table[next := PhoneNumber(next, id, numbers[i])];
        next := next + 1;
      }
      phones, nextPhoneId := table, next;
    }

    /** The customer's phones, as a set of ids. */
    function PhoneIds(customer: nat): set<nat>
      reads this
    {
      PhonesOf(phones, customer)
    }

    /**
     * `update`: name, address and type take the new value when present and keep the old
     * one otherwise; then the phone entries are reconciled in order and the phones no
     * entry claimed are deleted.
     */
    method Update(id: nat, changes: CustomerChanges, entries: seq<PhoneEntry>)
      requires Valid() && id in customers
      modifies this
      ensures Valid()
      ensures customers == old(customers)[id := Customer(id,
        changes.name.GetOr(old(customers)[id].name),
        changes.address.GetOr(old(customers)[id].address),
        changes.customerType.GetOr(old(customers)[id].customerType))]
      ensures nextCustomerId == old(nextCustomerId)
      ensures var r := RunKeeping(Start(old(phones), id, old(nextPhoneId)), id, entries);
        phones == Finish(r) && nextPhoneId == r.nextId
    {
      var c := customers[id];
      customers := customers[id := Customer(id, changes.name.GetOr(c.name), changes.address.GetOr(c.address),
                                            changes.customerType.GetOr(c.customerType))];
      var table, unclaimed, next := phones, PhonesOf(phones, id), nextPhoneId;
      ghost var start := Start(phones, id, nextPhoneId);
      for i := 0 to |entries|
        invariant Book(table, unclaimed, next) == RunKeeping(start, id, entries[..i])
      {
        assert entries[..i + 1][..i] == entries[..i];
        var e := entries[i];
        if e.id.Some? && e.id.value != 0 {
          if e.id.value > 0 && e.id.value as nat in unclaimed && e.id.value as nat in table {
            var k := e.id.value as nat;
            unclaimed := unclaimed - {k};
            table := table[k := table[k].(number := e.number)];
          }
        } else if Holds(table, id, e.number) {
          unclaimed := unclaimed - Matching(table, id, e.number);
        } else {
          table := table[next := PhoneNumber(next, id, e.number)];
          next := next + 1;
        }
      }
      assert entries[..|entries|] == entries;
      RunKeepingFresh(start, id, entries);
      phones, nextPhoneId := table - unclaimed, next;
    }
  }
}
