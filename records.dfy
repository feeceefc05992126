/** The records the components read from the hosted store. Field names follow the
    store's columns (`title_c` is `title`, `due_date_c` is `dueDate`, and so on);
    dates and times are integers (milliseconds on one clock). */
module Records {
  import opened Wrappers
  import opened SeqFilter

  /** A lookup column: `null`, an expanded record `{Id, ...}`, or a bare id. */
  datatype Lookup = Null | Linked(Id: int) | Bare(id: int)

  /** `field?.Id || field`, as the components write it. An expanded record whose
      `Id` is falsy yields the record object itself, which is never equal to a
      number; the model reports that, like `null`, as no id. */
  function LookupId(l: Lookup): (r: Option<int>)
    ensures l.Null? ==> r == None
    ensures l.Bare? ==> r == Some(l.id)
    ensures l.Linked? ==> (r.Some? <==> l.Id != 0) && (r.Some? ==> r.value == l.Id)
  {
    match l
    case Null => None
    case Linked(id) => if id != 0 then Some(id) else None
    case Bare(id) => Some(id)
  }

  datatype Task = Task(
    Id: int,
    Name: Option<string>,
    title: Option<string>,
    dueDate: Option<int>,
    priority: string,
    status: string,
    createdAt: int,
    category: Lookup)

  datatype Reminder = Reminder(Id: int, task: Lookup, time: int, status: string)

  datatype Category = Category(Id: int, Name: string, color: string)

  const ToDo := "To Do"
  const InProgress := "In Progress"
  const Done := "Done"

  const Scheduled := "Scheduled"
  const Sent := "Sent"

  /** The normalised category id of a task. */
  function CategoryIdOf(t: Task): Option<int>
  {
    LookupId(t.category)
  }

  /** `tasks.filter(p).length` for the status test used by the stats and columns. */
  function CountStatus(tasks: seq<Task>, status: string): (r: nat)
    ensures r <= |tasks|
  {
    if tasks == [] then 0
    else (if tasks[0].status == status then 1 else 0) + CountStatus(tasks[1..], status)
  }

  /** The test `task => task.status_c === status`. */
  function StatusIs(status: string): Task -> bool
  {
    (t: Task) => t.status == status
  }

  /** Filtering by a status test keeps as many tasks as have that status. */
  lemma {:induction false} WhereStatusCount(s: seq<Task>, status: string, keep: Task -> bool)
    requires forall t :: keep(t) == (t.status == status)
    ensures |Where(s, keep)| == CountStatus(s, status)
  {
    if s != [] {
      WhereStatusCount(s[1..], status, keep);
    }
  }

  /** `getCategoryTaskCount(categoryId)`: the number of tasks whose normalised
      category id is `categoryId`. */
  function CategoryTaskCount(tasks: seq<Task>, categoryId: int): (r: nat)
    ensures r <= |tasks|
    ensures r == 0 <==> forall i :: 0 <= i < |tasks| ==> CategoryIdOf(tasks[i]) != Some(categoryId)
  {
    if tasks == [] then 0
    else (if CategoryIdOf(tasks[0]) == Some(categoryId) then 1 else 0) + CategoryTaskCount(tasks[1..], categoryId)
  }

  /** The fields the board and the task card send to `taskService.update`. */
  datatype TaskUpdate = TaskUpdate(
    title: Option<string>,
    dueDate: Option<int>,
    priority: string,
    status: string,
    categoryId: Option<int>)

  /** The update that moves `t` to `status`: its title, due date, priority and
      normalised category, with the new status. */
  function UpdatePayload(t: Task, status: string): (u: TaskUpdate)
    ensures u.status == status
  {
    TaskUpdate(t.title, t.dueDate, t.priority, status, CategoryIdOf(t))
  }

  /** The payload describes the task exactly as the local list shows it after the
      change: it is the payload of the updated task for its own status, and it
      differs from the task's unchanged payload only in the status. */
  lemma UpdatePayloadOnlyStatus(t: Task, status: string)
    ensures UpdatePayload(t, status) == UpdatePayload(t.(status := status), t.(status := status).status)
    ensures UpdatePayload(t, status) == UpdatePayload(t, t.status).(status := status)
    ensures UpdatePayload(t, status).categoryId == CategoryIdOf(t)
  {
  }
}
