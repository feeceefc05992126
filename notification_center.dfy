/** The notification panel: what a click on a record does, the icon and colour of
    each record kind, and when "Mark all read" is offered. The store is the
    notification slice; `onNavigateToTask` and `onClose` are callbacks whose calls
    are reported rather than performed. */
module NotificationCenter {
  import opened Wrappers
  import opened NotificationSlice

  datatype Icon = Bell | AlertTriangle | CheckCircle | Info

  datatype Colour = Blue | Orange | Green | Gray

  /** `getNotificationIcon(type)`. */
  function IconFor(kind: Option<string>): (i: Icon)
    ensures i == Bell <==> kind == Some("reminder")
    ensures i == AlertTriangle <==> kind == Some("task_due")
    ensures i == CheckCircle <==> kind == Some("task_completed")
  {
    if kind == Some("reminder") then Bell
    else if kind == Some("task_due") then AlertTriangle
    else if kind == Some("task_completed") then CheckCircle
    else Info
  }

  /** `getNotificationColor(type)`. */
  function ColourFor(kind: Option<string>): (c: Colour)
    ensures c == Blue <==> kind == Some("reminder")
    ensures c == Orange <==> kind == Some("task_due")
    ensures c == Green <==> kind == Some("task_completed")
  {
    if kind == Some("reminder") then Blue
    else if kind == Some("task_due") then Orange
    else if kind == Some("task_completed") then Green
    else Gray
  }

  /** The two mappings sort kinds into the same four classes: the fallback icon
      and the fallback colour go with exactly the same kinds. */
  lemma IconAndColourAgree(kind: Option<string>)
    ensures IconFor(kind) == Info <==> ColourFor(kind) == Gray
    ensures IconFor(kind) == Info <==> kind !in {Some("reminder"), Some("task_due"), Some("task_completed")}
  {
  }

  /** What a click does besides the store update. */
  datatype ClickPlan = ClickPlan(markRead: bool, navigateTo: Option<int>, close: bool)

  /** `handleNotificationClick(notification)`: mark an unread record read, and
      navigate and close only for a record with a truthy task id when a
      navigation callback exists. */
  function PlanClick(n: Notification, canNavigate: bool): (p: ClickPlan)
    ensures p.markRead <==> !n.read
    ensures p.navigateTo.Some? <==> TruthyId(n.taskId) && canNavigate
    ensures p.navigateTo.Some? ==> p.navigateTo == n.taskId
    ensures p.close <==> p.navigateTo.Some?
  {
    var go := TruthyId(n.taskId) && canNavigate;
    ClickPlan(!n.read, if go then n.taskId else None, go)
  }

  /** "Mark all read" is shown exactly while the counter is positive. */
  function ShowMarkAll(unreadCount: nat): bool
  {
    unreadCount > 0
  }

  lemma {:induction false} UnreadCountPositive(ns: seq<Notification>)
    ensures UnreadCount(ns) > 0 <==> exists i :: 0 <= i < |ns| && !ns[i].read
  {
    if ns != [] {
      UnreadCountPositive(ns[1..]);
      assert ns == [ns[0]] + ns[1..];
      UnreadCountAppend([ns[0]], ns[1..]);
      if exists i :: 0 <= i < |ns[1..]| && !ns[1..][i].read {
        var i :| 0 <= i < |ns[1..]| && !ns[1..][i].read;
        assert !ns[i + 1].read;
      }
      if exists i :: 0 <= i < |ns| && !ns[i].read {
        var i :| 0 <= i < |ns| && !ns[i].read;
        if i > 0 { assert !ns[1..][i - 1].read; }
      }
    }
  }

  /** In a consistent store the button is offered exactly when some record is unread. */
  lemma MarkAllShownIffUnread(ns: seq<Notification>, unreadCount: nat)
    requires unreadCount == UnreadCount(ns)
    ensures ShowMarkAll(unreadCount) <==> exists i :: 0 <= i < |ns| && !ns[i].read
  {
    UnreadCountPositive(ns);
  }

  /** The click handler against the store: the plan, with `markAsRead` dispatched
      only when the record is unread. */
  method HandleNotificationClick(store: NotificationState, n: Notification, canNavigate: bool) returns (plan: ClickPlan)
    modifies store`notifications, store`unreadCount
    ensures plan == PlanClick(n, canNavigate)
    ensures n.read ==> store.notifications == old(store.notifications) && store.unreadCount == old(store.unreadCount)
    ensures !n.read ==>
              var i := FindIndex(old(store.notifications), n.id);
              if i >= 0 && !old(store.notifications)[i].read then
                store.notifications == old(store.notifications)[i := old(store.notifications)[i].(read := true)]
                && store.unreadCount == Floor0(old(store.unreadCount) - 1)
              else
                store.notifications == old(store.notifications) && store.unreadCount == old(store.unreadCount)
    ensures old(store.Consistent()) ==> store.Consistent()
  {
    plan := PlanClick(n, canNavigate);
    if !n.read {
      store.MarkAsRead(n.id);
    }
  }

  /** `handleMarkAllRead()`. */
  method HandleMarkAllRead(store: NotificationState)
    modifies store`notifications, store`unreadCount
    ensures store.notifications == MarkAll(old(store.notifications)) && store.unreadCount == 0
    ensures store.Consistent() && !ShowMarkAll(store.unreadCount)
  {
    store.MarkAllAsRead();
  }

  /** `handleRemoveNotification(id, event)`. */
  method HandleRemoveNotification(store: NotificationState, id: int)
    modifies store`notifications, store`unreadCount
    ensures var i := FindIndex(old(store.notifications), id);
            && (i >= 0 ==> store.notifications == old(store.notifications)[..i] + old(store.notifications)[i + 1..]
                           && store.unreadCount == (if old(store.notifications)[i].read then old(store.unreadCount)
                                                    else Floor0(old(store.unreadCount) - 1)))
            && (i < 0 ==> store.notifications == old(store.notifications) && store.unreadCount == old(store.unreadCount))
    ensures old(store.Consistent()) ==> store.Consistent()
  {
    store.RemoveNotification(id);
  }
}
