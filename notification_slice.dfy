/** The notification log: the store slice behind the notification centre. Its
    reducers update the state in place, so the slice is a class whose fields are
    the state's keys. */
module NotificationSlice {
  import opened Wrappers

  /** One record of the log. `kind` is the record's `type`. */
  datatype Notification = Notification(
    id: int,
    timestamp: int,
    read: bool,
    kind: Option<string>,
    title: Option<string>,
    message: Option<string>,
    taskId: Option<int>,
    reminderId: Option<int>)

  /** The payload of `addNotification`. Every key is optional; `id`, `timestamp`
      and `read` are spread after the defaults and so override them. */
  datatype Payload = Payload(
    id: Option<int>,
    timestamp: Option<int>,
    read: Option<bool>,
    kind: Option<string>,
    title: Option<string>,
    message: Option<string>,
    taskId: Option<int>,
    reminderId: Option<int>)

  /** Retention bound of `clearOldNotifications`. */
  const MaxKept := 50

  /** `Math.max(0, x)`. */
  function Floor0(x: int): (r: nat)
    ensures r >= x && (x >= 0 ==> r == x) && (x < 0 ==> r == 0)
  {
    if x > 0 then x else 0
  }

  /** The record `addNotification` builds at clock reading `now`. */
  function FromPayload(p: Payload, now: int): (n: Notification)
    ensures n.id == (if p.id.Some? then p.id.value else now)
    ensures n.read == (p.read.Some? && p.read.value)
    ensures n.kind == p.kind && n.title == p.title && n.message == p.message
    ensures n.taskId == p.taskId && n.reminderId == p.reminderId
  {
    Notification(
      if p.id.Some? then p.id.value else now,
      if p.timestamp.Some? then p.timestamp.value else now,
      if p.read.Some? then p.read.value else false,
      p.kind, p.title, p.message, p.taskId, p.reminderId)
  }

  /** The number of unread records. */
  function UnreadCount(ns: seq<Notification>): (r: nat)
    ensures r <= |ns|
  {
    if ns == [] then 0 else (if ns[0].read then 0 else 1) + UnreadCount(ns[1..])
  }

  /** `findIndex(n => n.id === id)`: the first index holding `id`, or -1. */
  function FindIndex(ns: seq<Notification>, id: int): (r: int)
    ensures -1 <= r < |ns|
    ensures r >= 0 ==> ns[r].id == id && forall j :: 0 <= j < r ==> ns[j].id != id
    ensures r == -1 <==> forall j :: 0 <= j < |ns| ==> ns[j].id != id
  {
    if ns == [] then -1
    else if ns[0].id == id then 0
    else var k := FindIndex(ns[1..], id); if k == -1 then -1 else k + 1
  }

  /** All records with `read = true`. */
  function MarkAll(ns: seq<Notification>): (r: seq<Notification>)
  {
    seq(|ns|, i requires 0 <= i < |ns| => ns[i].(read := true))
  }

  lemma {:induction false} UnreadCountAppend(a: seq<Notification>, b: seq<Notification>)
    ensures UnreadCount(a + b) == UnreadCount(a) + UnreadCount(b)
    decreases |a|
  {
    if a == [] {
      assert a + b == b;
    } else {
      assert (a + b)[1..] == a[1..] + b;
      UnreadCountAppend(a[1..], b);
    }
  }

  /** Flipping one unread record to read lowers the unread count by one. */
  lemma {:induction false} UnreadCountMarkOne(ns: seq<Notification>, i: nat)
    requires i < |ns| && !ns[i].read
    ensures UnreadCount(ns[i := ns[i].(read := true)]) == UnreadCount(ns) - 1
    decreases i
  {
    var ms := ns[i := ns[i].(read := true)];
    if i > 0 {
      assert ms[1..] == ns[1..][i - 1 := ns[i].(read := true)];
      UnreadCountMarkOne(ns[1..], i - 1);
    } else {
      assert ms[1..] == ns[1..];
    }
  }

  /** Deleting one record lowers the unread count by one exactly when it was unread. */
  lemma UnreadCountRemove(ns: seq<Notification>, i: nat)
    requires i < |ns|
    ensures UnreadCount(ns[..i] + ns[i + 1..]) == UnreadCount(ns) - (if ns[i].read then 0 else 1)
  {
    assert ns == ns[..i] + ([ns[i]] + ns[i + 1..]);
    UnreadCountAppend(ns[..i], [ns[i]] + ns[i + 1..]);
    UnreadCountAppend(ns[..i], ns[i + 1..]);
    assert ([ns[i]] + ns[i + 1..])[1..] == ns[i + 1..];
  }

  lemma {:induction false} MarkAllHasNoUnread(ns: seq<Notification>)
    ensures UnreadCount(MarkAll(ns)) == 0
    decreases |ns|
  {
    if ns != [] {
      assert MarkAll(ns)[1..] == MarkAll(ns[1..]);
      MarkAllHasNoUnread(ns[1..]);
    }
  }

  /** Marking everything read twice is the same as once. */
  lemma MarkAllIdempotent(ns: seq<Notification>)
    ensures MarkAll(MarkAll(ns)) == MarkAll(ns)
    ensures |MarkAll(ns)| == |ns|
    ensures forall i :: 0 <= i < |ns| ==> MarkAll(ns)[i].id == ns[i].id
  {
  }

  /** Keeping the first 50 records drops exactly the unread records after them. */
  lemma UnreadCountTrim(ns: seq<Notification>)
    requires |ns| > MaxKept
    ensures UnreadCount(ns[..MaxKept]) == UnreadCount(ns) - UnreadCount(ns[MaxKept..])
  {
    assert ns == ns[..MaxKept] + ns[MaxKept..];
    UnreadCountAppend(ns[..MaxKept], ns[MaxKept..]);
  }

  class NotificationState {
    var notifications: seq<Notification>
    var unreadCount: nat
    var isNotificationCenterOpen: bool
    var permissionRequested: bool
    var permissionGranted: bool

    /** The slice's invariant: the counter agrees with the records. */
    predicate Consistent()
      reads this
    {
      unreadCount == UnreadCount(notifications)
    }

    /** `initialState`. */
    constructor ()
      ensures notifications == [] && unreadCount == 0
      ensures !isNotificationCenterOpen && !permissionRequested && !permissionGranted
      ensures Consistent()
    {
      notifications := [];
      unreadCount := 0;
      isNotificationCenterOpen := false;
      permissionRequested := false;
      permissionGranted := false;
    }

    /** `addNotification`: the new record goes first, the counter rises by one
        (even when the payload itself says `read: true`). */
    method AddNotification(p: Payload, now: int)
      modifies this`notifications, this`unreadCount
      ensures notifications == [FromPayload(p, now)] + old(notifications)
      ensures notifications[0].id == (if p.id.Some? then p.id.value else now)
      ensures unreadCount == old(unreadCount) + 1
      ensures p.read != Some(true) && old(Consistent()) ==> Consistent()
    {
      var n := FromPayload(p, now);
      notifications := [n] + notifications;
      unreadCount := unreadCount + 1;
      assert notifications[1..] == old(notifications);
    }

    /** `markAsRead(id)`: only the first record with `id`, and only if unread. */
    method MarkAsRead(id: int)
      modifies this`notifications, this`unreadCount
      ensures var i := FindIndex(old(notifications), id);
        if i >= 0 && !old(notifications)[i].read then
          notifications == old(notifications)[i := old(notifications)[i].(read := true)]
          && unreadCount == Floor0(old(unreadCount) - 1)
        else
          notifications == old(notifications) && unreadCount == old(unreadCount)
      ensures old(Consistent()) ==> Consistent()
    {
      var i := FindIndex(notifications, id);
      if i >= 0 && !notifications[i].read {
        UnreadCountMarkOne(notifications, i);
        notifications := notifications[i := notifications[i].(read := true)];
        unreadCount := Floor0(unreadCount - 1);
      }
    }

    /** `markAllAsRead`: every record read, counter zero. */
    method MarkAllAsRead()
      modifies this`notifications, this`unreadCount
      ensures notifications == MarkAll(old(notifications))
      ensures unreadCount == 0
      ensures Consistent()
    {
      var i := 0;
      while i < |notifications|
        invariant 0 <= i <= |notifications| == |old(notifications)|
        invariant forall j :: 0 <= j < i ==> notifications[j] == old(notifications)[j].(read := true)
        invariant forall j :: i <= j < |notifications| ==> notifications[j] == old(notifications)[j]
      {
        notifications := notifications[i := notifications[i].(read := true)];
        i := i + 1;
      }
      unreadCount := 0;
      MarkAllHasNoUnread(old(notifications));
    }

    /** `removeNotification(id)`: deletes the first record with `id`. */
    method RemoveNotification(id: int)
      modifies this`notifications, this`unreadCount
      ensures var i := FindIndex(old(notifications), id);
        if i >= 0 then
          notifications == old(notifications)[..i] + old(notifications)[i + 1..]
          && unreadCount == (if old(notifications)[i].read then old(unreadCount) else Floor0(old(unreadCount) - 1))
        else
          notifications == old(notifications) && unreadCount == old(unreadCount)
      ensures old(Consistent()) ==> Consistent()
    {
      var index := FindIndex(notifications, id);
      if index != -1 {
        var n := notifications[index];
        UnreadCountRemove(notifications, index);
        if !n.read {
          unreadCount := Floor0(unreadCount - 1);
        }
        notifications := notifications[..index] + notifications[index + 1..];
      }
    }

    /** `clearOldNotifications`: keep the first 50 records. */
    method ClearOldNotifications()
      modifies this`notifications, this`unreadCount
      ensures |old(notifications)| <= MaxKept ==> notifications == old(notifications) && unreadCount == old(unreadCount)
      ensures |old(notifications)| > MaxKept ==> notifications == old(notifications)[..MaxKept]
      ensures unreadCount == Floor0(old(unreadCount) - (if |old(notifications)| > MaxKept then UnreadCount(old(notifications)[MaxKept..]) else 0))
      ensures old(Consistent()) ==> Consistent()
    {
      var toRemove := if |notifications| > MaxKept then notifications[MaxKept..] else [];
      var unreadToRemove := UnreadCount(toRemove);
      if |notifications| > MaxKept {
        UnreadCountTrim(notifications);
        notifications := notifications[..MaxKept];
      }
      unreadCount := Floor0(unreadCount - unreadToRemove);
    }

    method SetNotificationCenterOpen(b: bool)
      modifies this`isNotificationCenterOpen
      ensures isNotificationCenterOpen == b
    {
      isNotificationCenterOpen := b;
    }

    method SetPermissionRequested(b: bool)
      modifies this`permissionRequested
      ensures permissionRequested == b
    {
      permissionRequested := b;
    }

    method SetPermissionGranted(b: bool)
      modifies this`permissionGranted
      ensures permissionGranted == b
    {
      permissionGranted := b;
    }
  }
}
