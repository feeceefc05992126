/** The reminder list of one task: loading, adding and deleting reminders, and the
    label each reminder is shown with. Times are integers on the poller's clock;
    the time input holds `None` while it is empty. */
module ReminderList {
  import opened Wrappers
  import opened Records
  import opened SeqFilter
  import ReminderPoll

  /** The label of a reminder row. */
  datatype Label = Overdue | Completed | Pending

  /** The row label: Overdue for a scheduled reminder whose time has passed,
      otherwise Completed once sent and Scheduled (`Pending`) for anything else. */
  function RowLabel(r: Reminder, now: int): (l: Label)
    ensures l == Overdue <==> r.time < now && r.status == Scheduled
    ensures l == Completed <==> !(r.time < now && r.status == Scheduled) && r.status == Sent
    ensures l == Pending <==> !(r.time < now && r.status == Scheduled) && r.status != Sent
  {
    if r.time < now && r.status == Scheduled then Overdue
    else if r.status == Sent then Completed
    else Pending
  }

  /** An overdue row is one the poller treats as due, except at the very instant
      of its time, when it is due but not yet overdue. */
  lemma OverdueIsDue(r: Reminder, now: int)
    ensures RowLabel(r, now) == Overdue <==> ReminderPoll.IsDue(r, now) && r.time != now
  {
  }

  /** A sent reminder is never overdue. */
  lemma SentIsCompleted(r: Reminder, now: int)
    requires r.status == Sent
    ensures RowLabel(r, now) == Completed
  {
  }

  /** What `reminderService.create` is asked for. */
  datatype NewReminder = NewReminder(taskId: Option<int>, taskTitle: Option<string>, time: int)

  function OtherReminder(id: int): Reminder -> bool
  {
    (r: Reminder) => r.Id != id
  }

  /** Deleting keeps every other reminder, in order, and nothing with that Id. */
  lemma DeleteExact(reminders: seq<Reminder>, id: int)
    ensures forall r: Reminder :: r in Where(reminders, OtherReminder(id)) <==> r in reminders && r.Id != id
    ensures IsSubsequence(Where(reminders, OtherReminder(id)), reminders)
  {
    WhereMembership(reminders, OtherReminder(id));
    WhereIsSubsequence(reminders, OtherReminder(id));
  }

  class ReminderListState {
    const taskId: Option<int>
    const taskTitle: Option<string>
    var reminders: seq<Reminder>
    var loading: bool
    var showAddForm: bool
    var newReminderTime: Option<int>

    constructor (taskId: Option<int>, taskTitle: Option<string>)
      ensures this.taskId == taskId && this.taskTitle == taskTitle
      ensures reminders == [] && !loading && !showAddForm && newReminderTime.None?
    {
      this.taskId := taskId;
      this.taskTitle := taskTitle;
      reminders, loading, showAddForm, newReminderTime := [], false, false, None;
    }

    /** `loadReminders()`: nothing without a task id; otherwise the task's reminders
        replace the list when the query succeeds. */
    method LoadReminders(answer: Outcome<seq<Reminder>>) returns (queried: bool)
      modifies this`reminders, this`loading
      ensures queried <==> TruthyId(taskId)
      ensures !queried ==> reminders == old(reminders) && loading == old(loading)
      ensures queried ==> !loading && reminders == if answer.Ok? then answer.value else old(reminders)
    {
      if !TruthyId(taskId) {
        return false;
      }
      loading := true;
      if answer.Ok? {
        reminders := answer.value;
      }
      loading := false;
      return true;
    }

    /** `handleAddReminder`: an empty time is refused; a created reminder goes last
        and the input is cleared. */
    method HandleAddReminder(answer: Outcome<Reminder>) returns (request: Option<NewReminder>)
      modifies this`reminders, this`newReminderTime, this`showAddForm
      ensures request.None? <==> old(newReminderTime).None?
      ensures request.Some? ==> request.value == NewReminder(taskId, taskTitle, old(newReminderTime).value)
      ensures request.Some? && answer.Ok? ==>
                reminders == old(reminders) + [answer.value] && newReminderTime.None? && !showAddForm
      ensures request.None? || answer.Err? ==>
                reminders == old(reminders) && newReminderTime == old(newReminderTime) && showAddForm == old(showAddForm)
    {
      if newReminderTime.None? {
        return None;
      }
      request := Some(NewReminder(taskId, taskTitle, newReminderTime.value));
      if answer.Ok? {
        reminders := reminders + [answer.value];
        newReminderTime := None;
        showAddForm := false;
      }
    }

    /** `handleDeleteReminder(id)`: asks first; a removal that succeeds drops that Id. */
    method HandleDeleteReminder(id: int, confirmed: bool, answer: Outcome<()>) returns (removed: bool)
      modifies this`reminders
      ensures removed <==> confirmed && answer.Ok?
      ensures reminders == if removed then Where(old(reminders), OtherReminder(id)) else old(reminders)
    {
      if !confirmed {
        return false;
      }
      if answer.Err? {
        return false;
      }
      reminders := Where(reminders, OtherReminder(id));
      return true;
    }
  }
}
