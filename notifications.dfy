/**
 * The notification context of the frontend: a list of notifications, newest first,
 * that the provider replaces on every add, mark-as-read and remove.
 */
module Notifications {
  import opened Basics
  import opened Text

  datatype Kind = Info | Warning | Error | Success

  datatype Priority = Low | Medium | High

  /** A notification; the timestamp is in milliseconds. */
  datatype Notification = Notification(
    id: string, title: string, message: string, kind: Kind, priority: Priority,
    read: bool, timestamp: int, taskId: Option<string>, actionUrl: Option<string>)

  /** What a caller of `addNotification` supplies: everything but id, timestamp and read. */
  datatype Draft = Draft(
    title: string, message: string, kind: Kind, priority: Priority,
    taskId: Option<string>, actionUrl: Option<string>)

  /** `unreadCount`: the notifications not yet read. */
  function UnreadIn(xs: seq<Notification>): (n: nat)
    ensures n <= |xs|
    ensures n == 0 <==> forall i :: 0 <= i < |xs| ==> xs[i].read
  {
    if xs == [] then 0
    else
      assert forall i :: 1 <= i < |xs| ==> xs[i] == xs[1..][i - 1];
      (if xs[0].read then 0 else 1) + UnreadIn(xs[1..])
  }

  /** The new entry: the draft with the clock's milliseconds as id and time, unread. */
  function Publish(d: Draft, now: nat): (n: Notification)
    ensures !n.read && n.timestamp == now && n.id == NatToString(now)
    ensures n.title == d.title && n.message == d.message && n.kind == d.kind && n.priority == d.priority
    ensures n.taskId == d.taskId && n.actionUrl == d.actionUrl
  {
    Notification(NatToString(now), d.title, d.message, d.kind, d.priority, false, now, d.taskId, d.actionUrl)
  }

  /**
   * `markAsRead(id)`: every entry with that id becomes read; every other entry and
   * every other field stays as it was.
   */
  function MarkedRead(xs: seq<Notification>, id: string): (r: seq<Notification>)
    ensures |r| == |xs|
    ensures forall i :: 0 <= i < |xs| ==> r[i].read == (xs[i].read || xs[i].id == id)
    ensures forall i :: 0 <= i < |xs| ==> r[i].(read := xs[i].read) == xs[i]
  {
    if xs == [] then []
    else
      var rest := MarkedRead(xs[1..], id);
      assert forall i :: 1 <= i < |xs| ==> xs[i] == xs[1..][i - 1];
      [if xs[0].id == id then xs[0].(read := true) else xs[0]] + rest
  }

  /** `markAllAsRead`: every entry read, nothing else changed; nothing is left unread. */
  function AllRead(xs: seq<Notification>): (r: seq<Notification>)
    ensures |r| == |xs|
    ensures forall i :: 0 <= i < |xs| ==> r[i] == xs[i].(read := true)
    ensures UnreadIn(r) == 0
  {
    if xs == [] then []
    else
      var rest := AllRead(xs[1..]);
      assert forall i :: 1 <= i < |xs| ==> xs[i] == xs[1..][i - 1];
      [xs[0].(read := true)] + rest
  }

  /** `removeNotification(id)`: the entries without that id, in their order. */
  function Without(xs: seq<Notification>, id: string): (r: seq<Notification>)
    ensures |r| <= |xs|
    ensures forall n :: n in r <==> n in xs && n.id != id
    ensures |r| == |xs| <==> forall i :: 0 <= i < |xs| ==> xs[i].id != id
  {
    if xs == [] then []
    else
      var rest := Without(xs[1..], id);
      assert forall i :: 1 <= i < |xs| ==> xs[i] == xs[1..][i - 1];
      assert forall n :: n in xs <==> n == xs[0] || n in xs[1..];
      if xs[0].id == id then rest else [xs[0]] + rest
  }

  /** Marking the same id twice is marking it once. */
  lemma {:induction false} MarkedReadIdempotent(xs: seq<Notification>, id: string)
    ensures MarkedRead(MarkedRead(xs, id), id) == MarkedRead(xs, id)
  {
    var once := MarkedRead(xs, id);
    var twice := MarkedRead(once, id);
    forall i | 0 <= i < |xs| ensures twice[i] == once[i] {
      assert twice[i].(read := once[i].read) == once[i];
    }
  }

  /** Marking read never raises the unread count, and an id no entry has changes nothing. */
  lemma {:induction false} MarkedReadUnread(xs: seq<Notification>, id: string)
    ensures UnreadIn(MarkedRead(xs, id)) <= UnreadIn(xs)
    ensures (forall i :: 0 <= i < |xs| ==> xs[i].id != id) ==> MarkedRead(xs, id) == xs
  {
    if xs != [] {
      MarkedReadUnread(xs[1..], id);
      var r := MarkedRead(xs, id);
      assert r[1..] == MarkedRead(xs[1..], id);
      if forall i :: 0 <= i < |xs| ==> xs[i].id != id {
        assert forall i :: 0 <= i < |xs| ==> r[i] == xs[i] by {
          forall i | 0 <= i < |xs| ensures r[i] == xs[i] {
            assert r[i].(read := xs[i].read) == xs[i];
          }
        }
      }
    }
  }

  /**
   * Removing one id and marking another read commute: marking never changes an id, so
   * removal picks out the same entries either way.
   */
  lemma {:induction false} WithoutMarkedRead(xs: seq<Notification>, id: string, other: string)
    ensures Without(MarkedRead(xs, other), id) == MarkedRead(Without(xs, id), other)
  {
    if xs != [] {
      var head := if xs[0].id == other then xs[0].(read := true) else xs[0];
      assert MarkedRead(xs, other) == [head] + MarkedRead(xs[1..], other);
      assert ([head] + MarkedRead(xs[1..], other))[1..] == MarkedRead(xs[1..], other);
      WithoutMarkedRead(xs[1..], id, other);
      if xs[0].id != id {
        assert MarkedRead([xs[0]] + Without(xs[1..], id), other)
          == [head] + MarkedRead(Without(xs[1..], id), other) by {
          assert ([xs[0]] + Without(xs[1..], id))[1..] == Without(xs[1..], id);
        }
      }
    }
  }

  /** Removal keeps exactly the entries with another id, in their order. */
  lemma {:induction false} WithoutIsFilter(xs: seq<Notification>, id: string)
    ensures Without(xs, id) == Filter(xs, (n: Notification) => n.id != id)
    decreases |xs|
  {
    if xs != [] {
      WithoutIsFilter(xs[1..], id);
      assert xs == [xs[0]] + xs[1..];
      FilterCons(xs[0], xs[1..], (n: Notification) => n.id != id);
    }
  }

  /** The unread count is the number of entries not yet read. */
  lemma {:induction false} UnreadInIsCount(xs: seq<Notification>)
    ensures UnreadIn(xs) == Count(xs, (n: Notification) => !n.read)
    decreases |xs|
  {
    if xs != [] {
      UnreadInIsCount(xs[1..]);
      assert xs == [xs[0]] + xs[1..];
      CountAppend([xs[0]], xs[1..], (n: Notification) => !n.read);
      assert [xs[0]][..0] == [];
    }
  }

  /** Removing never raises the unread count. */
  lemma {:induction false} WithoutUnread(xs: seq<Notification>, id: string)
    ensures UnreadIn(Without(xs, id)) <= UnreadIn(xs)
  {
    if xs != [] {
      WithoutUnread(xs[1..], id);
    }
  }

  const STUCK_TITLE: string := "Task Stuck Alert"
  const STUCK_MESSAGE: string := "Task T-1015 has been stuck in 'Awaiting Parts' for 12 days"
  const BOTTLENECK_TITLE: string := "Critical Bottleneck"
  const BOTTLENECK_MESSAGE: string := "Task T-1019 requires immediate attention - 10 days stuck"
  const PAYMENT_TITLE: string := "Payment Received"
  const PAYMENT_MESSAGE: string := "Payment of $299.99 received for Task T-1001"
  const HOUR_MS: nat := 60 * 60 * 1000

  /** The three notifications the provider starts with, two of them unread. */
  function Initial(now: int): (xs: seq<Notification>)
    ensures |xs| == 3 && UnreadIn(xs) == 2
  {
    [Notification("1", STUCK_TITLE, STUCK_MESSAGE, Warning, High, false, now - 2 * HOUR_MS,
                  Some("T-1015"), Some("/dashboard/tasks/T-1015")),
     Notification("2", BOTTLENECK_TITLE, BOTTLENECK_MESSAGE, Error, High, false, now - 4 * HOUR_MS,
                  Some("T-1019"), Some("/dashboard/tasks/T-1019")),
     Notification("3", PAYMENT_TITLE, PAYMENT_MESSAGE, Success, Medium, true, now - 6 * HOUR_MS,
                  Some("T-1001"), None)]
  }

  /** The provider's state: the notification list, newest first. */
  class NotificationCenter {
    var notifications: seq<Notification>

    constructor (now: int)
      ensures notifications == Initial(now)
    {
      notifications := Initial(now);
    }

    function UnreadCount(): nat
      reads this
    {
      UnreadIn(notifications)
    }

    /** `addNotification`: the new entry, unread, in front of the others. */
    method Add(d: Draft, now: nat)
      modifies this
      ensures notifications == [Publish(d, now)] + old(notifications)
      ensures UnreadCount() == old(UnreadCount()) + 1
    {
      notifications := [Publish(d, now)] + notifications;
      assert notifications[1..] == old(notifications);
    }

    method MarkAsRead(id: string)
      modifies this
      ensures notifications == MarkedRead(old(notifications), id)
      ensures UnreadCount() <= old(UnreadCount())
    {
      MarkedReadUnread(notifications, id);
      notifications := MarkedRead(notifications, id);
    }

    method MarkAllAsRead()
      modifies this
      ensures notifications == AllRead(old(notifications))
      ensures |notifications| == |old(notifications)| && UnreadCount() == 0
    {
      notifications := AllRead(notifications);
    }

    method Remove(id: string)
      modifies this
      ensures notifications == Without(old(notifications), id)
      ensures UnreadCount() <= old(UnreadCount())
    {
      WithoutUnread(notifications, id);
      notifications := Without(notifications, id);
    }
  }
}
