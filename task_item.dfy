/** One task card: the status-change and delete handlers with their in-flight
    flags, and the overdue test. Each handler awaits a store call, so it is split
    into the part before the call (`Begin…`) and the part after it settles
    (`Finish…`); other handler calls may happen in between. */
module TaskItem {
  import opened Wrappers
  import opened Records

  /** `isOverdue`: dated, due before now and not done. */
  predicate IsOverdue(t: Task, now: int)
  {
    t.dueDate.Some? && t.dueDate.value < now && t.status != Done
  }

  /** A done or undated task is never overdue, and an overdue task stays overdue
      as time passes until its status or date changes. */
  lemma OverdueFacts(t: Task, now: int, later: int)
    ensures t.status == Done || t.dueDate.None? ==> !IsOverdue(t, now)
    ensures IsOverdue(t, now) && now <= later ==> IsOverdue(t, later)
    ensures IsOverdue(t, now) ==> !IsOverdue(t.(status := Done), now)
  {
  }

  class TaskItemState {
    const task: Task
    var isUpdating: bool
    var isDeleting: bool

    constructor (t: Task)
      ensures task == t && !isUpdating && !isDeleting
    {
      task := t;
      isUpdating, isDeleting := false, false;
    }

    /** `handleStatusChange(newStatus)` up to the store call: ignored while an
        update is in flight; otherwise raises the flag and sends the update. */
    method BeginStatusChange(newStatus: string) returns (request: Option<TaskUpdate>)
      modifies this`isUpdating
      ensures old(isUpdating) ==> request.None? && isUpdating
      ensures !old(isUpdating) ==> request == Some(UpdatePayload(task, newStatus)) && isUpdating
    {
      if isUpdating {
        return None;
      }
      isUpdating := true;
      request := Some(UpdatePayload(task, newStatus));
    }

    /** The `finally` after the update settles, whatever the outcome. */
    method FinishStatusChange(answer: Outcome<Task>) returns (succeeded: bool)
      modifies this`isUpdating
      ensures !isUpdating
      ensures succeeded <==> answer.Ok?
    {
      isUpdating := false;
      succeeded := answer.Ok?;
    }

    /** `handleDelete()` up to the store call: ignored while a delete is in flight
        (without asking) or when the confirmation is declined. */
    method BeginDelete(confirmed: bool) returns (requested: bool)
      modifies this`isDeleting
      ensures requested <==> !old(isDeleting) && confirmed
      ensures isDeleting == (old(isDeleting) || requested)
    {
      if isDeleting {
        return false;
      }
      if !confirmed {
        return false;
      }
      isDeleting := true;
      return true;
    }

    /** The `finally` after the removal settles, whatever the outcome. */
    method FinishDelete(answer: Outcome<()>) returns (succeeded: bool)
      modifies this`isDeleting
      ensures !isDeleting
      ensures succeeded <==> answer.Ok?
    {
      isDeleting := false;
      succeeded := answer.Ok?;
    }
  }

  /** Two status changes with no settlement in between send one update: the
      second finds the flag raised. */
  method DoubleClickSendsOnce(item: TaskItemState, first: string, second: string)
    returns (r1: Option<TaskUpdate>, r2: Option<TaskUpdate>)
    requires !item.isUpdating
    modifies item`isUpdating
    ensures r1 == Some(UpdatePayload(item.task, first)) && r2.None?
  {
    r1 := item.BeginStatusChange(first);
    r2 := item.BeginStatusChange(second);
  }
}
