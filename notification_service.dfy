/** The notification dispatcher: the browser's notification permission, native
    task reminders and the in-page fallback banner. */
module NotificationDispatch {
  import opened Wrappers
  import opened Text
  import opened Records

  /** `Notification.permission`. */
  datatype Permission = Default | Granted | Denied

  /** The three errors `requestPermission` throws. */
  datatype PermissionError = NotSupported | PermissionDenied | NotGranted

  /** How the awaited `requestPermission()` settles. */
  datatype PermissionOutcome = Resolved(granted: bool) | Threw(error: PermissionError)

  /** The `data` attached to a native reminder. */
  datatype ReminderData = ReminderData(taskId: int, reminderId: int, taskTitle: Option<string>)

  /** The native notification `showTaskReminder` constructs. `dueDate` stands for
      the body text `Due: <date>`. */
  datatype NativeReminder = NativeReminder(
    title: Option<string>,
    dueDate: Option<int>,
    tag: string,
    requireInteraction: bool,
    actions: seq<string>,
    data: ReminderData)

  /** The in-page banner `showInAppNotification` appends; `style` is
      `typeStyles[type]` (undefined for an unknown type) and `autoRemoveAfter`
      the delay of the scheduled removal, if one is scheduled. */
  datatype Banner = Banner(title: Option<string>, message: string, style: Option<string>, autoRemoveAfter: Option<int>)

  const DefaultBannerDuration := 5000

  /** The tag shared by every native reminder of one task. */
  function ReminderTag(taskId: int): string
  {
    "task-" + IntToString(taskId)
  }

  /** Native reminders replace each other exactly when they belong to the same task. */
  lemma ReminderTagInjective(a: int, b: int)
    ensures ReminderTag(a) == ReminderTag(b) <==> a == b
  {
    if ReminderTag(a) == ReminderTag(b) {
      assert IntToString(a) == ReminderTag(a)[5..] == ReminderTag(b)[5..] == IntToString(b);
      IntToStringInjective(a, b);
    }
  }

  function BannerStyle(kind: string): (r: Option<string>)
    ensures r.Some? <==> kind in {"info", "success", "warning", "error"}
  {
    if kind == "info" then Some("bg-blue-500 text-white")
    else if kind == "success" then Some("bg-green-500 text-white")
    else if kind == "warning" then Some("bg-yellow-500 text-black")
    else if kind == "error" then Some("bg-red-500 text-white")
    else None
  }

  /** `showInAppNotification(title, message, type, duration)`: the banner it
      shows. Removal is scheduled only for a positive duration. */
  function ShowInAppNotification(title: Option<string>, message: string, kind: string, duration: int): (b: Banner)
    ensures b.autoRemoveAfter.Some? <==> duration > 0
    ensures b.autoRemoveAfter.Some? ==> b.autoRemoveAfter.value == duration
    ensures b.title == title && b.message == message && b.style == BannerStyle(kind)
  {
    Banner(title, message, BannerStyle(kind), if duration > 0 then Some(duration) else None)
  }

  lemma DefaultBannerIsRemoved(title: Option<string>, message: string, kind: string)
    ensures ShowInAppNotification(title, message, kind, DefaultBannerDuration).autoRemoveAfter == Some(5000)
  {
  }

  /** What `showTaskReminder(task, reminder)` creates: a native notification, or
      `null` unless notifications are supported and granted. */
  function TaskReminder(supported: bool, permission: Permission, task: Task, reminder: Reminder): (n: Option<NativeReminder>)
    ensures n.Some? <==> supported && permission == Granted
    ensures n.Some? ==>
              && n.value.tag == ReminderTag(task.Id)
              && n.value.data == ReminderData(task.Id, reminder.Id, task.title)
              && n.value.title == task.title && n.value.requireInteraction
  {
    if !supported then None
    else if permission != Granted then None
    else Some(NativeReminder(task.title, task.dueDate, ReminderTag(task.Id), true, ["view", "dismiss"],
                             ReminderData(task.Id, reminder.Id, task.title)))
  }

  class NotificationService {
    var permission: Permission
    var isSupported: bool

    /** Reads `Notification.permission` and whether the platform has the API. */
    constructor (platformPermission: Permission, hasNotificationApi: bool)
      ensures permission == platformPermission && isSupported == hasNotificationApi
    {
      permission := platformPermission;
      isSupported := hasNotificationApi;
    }

    predicate IsPermissionGranted()
      reads this
    {
      permission == Granted
    }

    predicate CanRequestPermission()
      reads this
    {
      permission == Default
    }

    /** `isNotificationSupported()`: the platform does not change, so this is the
        flag read at construction. */
    predicate IsNotificationSupported()
      reads this
    {
      isSupported
    }

    /** `requestPermission()`; `answer` is what the platform's prompt returns and
        `prompts` the number of prompts shown. */
    method RequestPermission(answer: Permission) returns (r: PermissionOutcome, prompts: nat)
      modifies this`permission
      ensures !isSupported ==> r == Threw(NotSupported) && prompts == 0 && permission == old(permission)
      ensures isSupported && old(permission) == Granted ==> r == Resolved(true) && prompts == 0 && permission == Granted
      ensures isSupported && old(permission) == Denied ==> r == Threw(PermissionDenied) && prompts == 0 && permission == Denied
      ensures isSupported && old(permission) == Default ==>
        prompts == 1 && permission == answer
        && r == (if answer == Granted then Resolved(true) else Threw(NotGranted))
      ensures r.Resolved? ==> r.granted && permission == Granted
    {
      prompts := 0;
      if !isSupported {
        return Threw(NotSupported), prompts;
      }
      if permission == Granted {
        return Resolved(true), prompts;
      }
      if permission == Denied {
        return Threw(PermissionDenied), prompts;
      }
      prompts := prompts + 1;
      permission := answer;
      if answer != Granted {
        return Threw(NotGranted), prompts;
      }
      r := Resolved(true);
    }

    /** `showTaskReminder(task, reminder)` in this service's current state. */
    function ShowTaskReminder(task: Task, reminder: Reminder): Option<NativeReminder>
      reads this
    {
      TaskReminder(isSupported, permission, task, reminder)
    }
  }

  /** At most one of "granted" and "can ask" holds, and from `default` one can ask. */
  lemma GrantedAndRequestableExclusive(s: NotificationService)
    ensures !(s.IsPermissionGranted() && s.CanRequestPermission())
    ensures s.CanRequestPermission() <==> s.permission == Default
    ensures s.IsPermissionGranted() <==> s.permission == Granted
  {
  }
}
