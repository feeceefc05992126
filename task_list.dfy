/** The task list: the staged filters, the three sort orders, the Kanban column
    query and the two handlers that change the local task list. */
module TaskList {
  import opened Wrappers
  import opened Text
  import opened Records
  import opened SeqFilter
  import FilterPanel

  // ----- Filtering -----

  /** The category button row: all tasks, or one category id (`parseInt` of the
      selected id's text, which gives the id back). */
  datatype CategoryFilter = AllCategories | Only(id: int)

  /** The `filters` value the list holds: `{}` at first (every key missing), then
      the panel's filter object. */
  datatype ListFilters = ListFilters(
    priorities: Option<seq<string>>,
    statuses: Option<seq<string>>,
    dateRange: Option<FilterPanel.DateRange>)

  /** The fourth argument of `filterTasks`, which a caller may leave out. */
  datatype FilterArg = Undefined | Given(filters: ListFilters)

  const NoListFilters := ListFilters(None, None, None)

  /** The panel's filter object as the list receives it. */
  function FromPanel(f: FilterPanel.Filters): (r: ListFilters)
    ensures r.priorities == Some(f.priorities) && r.statuses == Some(f.statuses) && r.dateRange == Some(f.dateRange)
  {
    ListFilters(Some(f.priorities), Some(f.statuses), Some(f.dateRange))
  }

  predicate InCategory(t: Task, c: CategoryFilter)
  {
    c.AllCategories? || CategoryIdOf(t) == Some(c.id)
  }

  /** The lower-cased title or name contains the lower-cased search text. */
  predicate MatchesSearch(t: Task, searchText: string)
  {
    (t.title.Some? && Contains(Lower(t.title.value), Lower(searchText)))
    || (t.Name.Some? && Contains(Lower(t.Name.value), Lower(searchText)))
  }

  /** A membership filter is active when the list is present and non-empty. */
  predicate ListActive(l: Option<seq<string>>)
  {
    l.Some? && |l.value| > 0
  }

  predicate DateActive(d: Option<FilterPanel.DateRange>)
  {
    d.Some? && (d.value.start.Some? || d.value.end.Some?)
  }

  /** `list.includes(x)` on a list known to be present. */
  predicate Listed(x: string, l: Option<seq<string>>)
  {
    l.Some? && x in l.value
  }

  /** The inclusive date-range test: an undated task never passes. */
  predicate InDateRange(t: Task, d: FilterPanel.DateRange)
  {
    t.dueDate.Some?
    && (d.start.Some? ==> d.start.value <= t.dueDate.value)
    && (d.end.Some? ==> t.dueDate.value <= d.end.value)
  }

  predicate InRange(t: Task, d: Option<FilterPanel.DateRange>)
  {
    d.Some? && InDateRange(t, d.value)
  }

  /** Every active criterion at once: the reference the staged filter is proved against. */
  predicate Passes(t: Task, c: CategoryFilter, searchText: string, f: ListFilters)
  {
    && InCategory(t, c)
    && (searchText != "" ==> MatchesSearch(t, searchText))
    && (ListActive(f.priorities) ==> Listed(t.priority, f.priorities))
    && (ListActive(f.statuses) ==> Listed(t.status, f.statuses))
    && (DateActive(f.dateRange) ==> InRange(t, f.dateRange))
  }

  function CategoryTest(c: CategoryFilter): Task -> bool
  {
    (t: Task) => InCategory(t, c)
  }

  function SearchTest(searchText: string): Task -> bool
  {
    (t: Task) => MatchesSearch(t, searchText)
  }

  function PriorityTest(f: ListFilters): Task -> bool
  {
    (t: Task) => Listed(t.priority, f.priorities)
  }

  function StatusTest(f: ListFilters): Task -> bool
  {
    (t: Task) => Listed(t.status, f.statuses)
  }

  function DateTest(f: ListFilters): Task -> bool
  {
    (t: Task) => InRange(t, f.dateRange)
  }

  function PassesTest(c: CategoryFilter, searchText: string, f: ListFilters): Task -> bool
  {
    (t: Task) => Passes(t, c, searchText, f)
  }

  /** One filter stage: applied only when its criterion is active. */
  function Stage(s: seq<Task>, active: bool, keep: Task -> bool): seq<Task>
  {
    if active then Where(s, keep) else s
  }

  /** `filterTasks(tasks, categoryFilter, searchText, filters)`: the category, search,
      priority, status and date stages one after the other. Reading a key of an
      undefined `filters` throws. */
  function FilterTasks(tasks: seq<Task>, c: CategoryFilter, searchText: string, filters: FilterArg): Outcome<seq<Task>>
  {
    var bySearch := Stage(Stage(tasks, !c.AllCategories?, CategoryTest(c)), searchText != "", SearchTest(searchText));
    if filters.Undefined? then Err
    else
      var f := filters.filters;
      var byPriority := Stage(bySearch, ListActive(f.priorities), PriorityTest(f));
      var byStatus := Stage(byPriority, ListActive(f.statuses), StatusTest(f));
      Ok(Stage(byStatus, DateActive(f.dateRange), DateTest(f)))
  }

  /** The test a stage amounts to: `active ==> keep`. */
  function Gate(active: bool, keep: Task -> bool): Task -> bool
  {
    (t: Task) => active ==> keep(t)
  }

  function Both(p: Task -> bool, q: Task -> bool): Task -> bool
  {
    (t: Task) => p(t) && q(t)
  }

  lemma StageIsWhere(s: seq<Task>, active: bool, keep: Task -> bool)
    ensures Stage(s, active, keep) == Where(s, Gate(active, keep))
  {
    if active {
      WhereSameTest(s, keep, Gate(active, keep));
    } else {
      WhereAllPass(s, Gate(active, keep));
    }
  }

  /** Applying stage `keep` to what the gates `g` let through is filtering by both. */
  lemma StageAfter(tasks: seq<Task>, g: Task -> bool, active: bool, keep: Task -> bool)
    ensures Stage(Where(tasks, g), active, keep) == Where(tasks, Both(g, Gate(active, keep)))
  {
    StageIsWhere(Where(tasks, g), active, keep);
    WhereThenWhere(tasks, g, Gate(active, keep), Both(g, Gate(active, keep)));
  }

  /** The five stage gates, conjoined in the order the stages run. */
  function Gates(c: CategoryFilter, searchText: string, f: ListFilters): Task -> bool
  {
    var g1 := Gate(!c.AllCategories?, CategoryTest(c));
    var g2 := Both(g1, Gate(searchText != "", SearchTest(searchText)));
    var g3 := Both(g2, Gate(ListActive(f.priorities), PriorityTest(f)));
    var g4 := Both(g3, Gate(ListActive(f.statuses), StatusTest(f)));
    Both(g4, Gate(DateActive(f.dateRange), DateTest(f)))
  }

  lemma GatesArePasses(c: CategoryFilter, searchText: string, f: ListFilters)
    ensures forall t :: Gates(c, searchText, f)(t) == PassesTest(c, searchText, f)(t)
  {
  }

  /** The staged filter keeps exactly the tasks that pass every criterion, in order. */
  lemma FilterTasksIsWhere(tasks: seq<Task>, c: CategoryFilter, searchText: string, f: ListFilters)
    ensures FilterTasks(tasks, c, searchText, Given(f)) == Ok(Where(tasks, PassesTest(c, searchText, f)))
  {
    var g1 := Gate(!c.AllCategories?, CategoryTest(c));
    var g2 := Both(g1, Gate(searchText != "", SearchTest(searchText)));
    var g3 := Both(g2, Gate(ListActive(f.priorities), PriorityTest(f)));
    var g4 := Both(g3, Gate(ListActive(f.statuses), StatusTest(f)));
    StageIsWhere(tasks, !c.AllCategories?, CategoryTest(c));
    StageAfter(tasks, g1, searchText != "", SearchTest(searchText));
    StageAfter(tasks, g2, ListActive(f.priorities), PriorityTest(f));
    StageAfter(tasks, g3, ListActive(f.statuses), StatusTest(f));
    StageAfter(tasks, g4, DateActive(f.dateRange), DateTest(f));
    GatesArePasses(c, searchText, f);
    WhereSameTest(tasks, Gates(c, searchText, f), PassesTest(c, searchText, f));
  }

  /** `filterTasks` throws exactly when `filters` is undefined; otherwise it returns
      an order-preserving subsequence holding exactly the tasks that pass. */
  lemma FilterTasksSpec(tasks: seq<Task>, c: CategoryFilter, searchText: string, filters: FilterArg)
    ensures FilterTasks(tasks, c, searchText, filters).Ok? <==> filters.Given?
    ensures filters.Given? ==>
              var r := FilterTasks(tasks, c, searchText, filters).value;
              && IsSubsequence(r, tasks)
              && forall t :: t in r <==> t in tasks && Passes(t, c, searchText, filters.filters)
  {
    if filters.Given? {
      FilterTasksIsWhere(tasks, c, searchText, filters.filters);
      WhereIsSubsequence(tasks, PassesTest(c, searchText, filters.filters));
      WhereMembership(tasks, PassesTest(c, searchText, filters.filters));
    }
  }

  /** With every category, no search text and no active filter, nothing is dropped. */
  lemma FilterTasksIdentity(tasks: seq<Task>, f: ListFilters)
    requires !ListActive(f.priorities) && !ListActive(f.statuses) && !DateActive(f.dateRange)
    ensures FilterTasks(tasks, AllCategories, "", Given(f)) == Ok(tasks)
  {
  }

  /** A panel with no active filter leaves the list as the category and search stages made it. */
  lemma ClearedPanelFiltersNothing(tasks: seq<Task>, c: CategoryFilter, searchText: string, f: FilterPanel.Filters)
    requires FilterPanel.ActiveCount(f) == 0
    ensures FilterTasks(tasks, c, searchText, Given(FromPanel(f))) == FilterTasks(tasks, c, searchText, Given(NoListFilters))
  {
  }

  // ----- Sorting -----

  /** `priorityOrder[p]`; a value outside the table ranks 0. */
  function PriorityRank(p: string): (r: int)
    ensures 0 <= r <= 3
    ensures r == 0 <==> p != "High" && p != "Medium" && p != "Low"
  {
    if p == "High" then 3 else if p == "Medium" then 2 else if p == "Low" then 1 else 0
  }

  /** The `priorityOrder` table: High above Medium above Low, and any listed
      priority above an unknown one. */
  lemma PriorityOrder(unknown: string)
    requires unknown != "High" && unknown != "Medium" && unknown != "Low"
    ensures PriorityRank("High") == 3 && PriorityRank("Medium") == 2 && PriorityRank("Low") == 1
    ensures PriorityRank("High") > PriorityRank("Medium") > PriorityRank("Low") > PriorityRank(unknown) == 0
  {
  }

  /** `new Date(due_date_c)` with a missing date read as `new Date(null)`, the epoch. */
  function DueKey(t: Task): int
  {
    if t.dueDate.Some? then t.dueDate.value else 0
  }

  predicate IsSortKey(sortBy: string)
  {
    sortBy == "dueDate" || sortBy == "priority" || sortBy == "created"
  }

  /** The comparator of each sort order as an ascending integer key. */
  function SortKey(sortBy: string, t: Task): int
  {
    if sortBy == "dueDate" then DueKey(t)
    else if sortBy == "priority" then -PriorityRank(t.priority)
    else -t.createdAt
  }

  function KeyOf(sortBy: string): Task -> int
  {
    (t: Task) => SortKey(sortBy, t)
  }

  predicate SortedBy(s: seq<Task>, key: Task -> int)
  {
    forall i, j :: 0 <= i < j < |s| ==> key(s[i]) <= key(s[j])
  }

  /** The tasks of `s` whose key is `k`, in order. */
  function WithKey(s: seq<Task>, key: Task -> int, k: int): seq<Task>
  {
    if s == [] then [] else (if key(s[0]) == k then [s[0]] else []) + WithKey(s[1..], key, k)
  }

  /** Places `x` before the first element with a key no smaller than its own. */
  function Insert(x: Task, s: seq<Task>, key: Task -> int): seq<Task>
  {
    if s == [] || key(x) <= key(s[0]) then [x] + s else [s[0]] + Insert(x, s[1..], key)
  }

  /** A stable sort by `key`, as `Array.prototype.sort` with a comparator is. */
  function SortByKey(s: seq<Task>, key: Task -> int): seq<Task>
  {
    if s == [] then [] else Insert(s[0], SortByKey(s[1..], key), key)
  }

  lemma {:induction false} InsertPermutes(x: Task, s: seq<Task>, key: Task -> int)
    ensures multiset(Insert(x, s, key)) == multiset(s) + multiset{x}
  {
    if !(s == [] || key(x) <= key(s[0])) {
      InsertPermutes(x, s[1..], key);
      assert s == [s[0]] + s[1..];
    }
  }

  /** A sorted sequence stays sorted under a new head no larger than any of its keys. */
  lemma ConsSorted(h: Task, s: seq<Task>, key: Task -> int)
    requires SortedBy(s, key)
    requires forall i :: 0 <= i < |s| ==> key(h) <= key(s[i])
    ensures SortedBy([h] + s, key)
  {
    var r := [h] + s;
    forall i, j | 0 <= i < j < |r| ensures key(r[i]) <= key(r[j]) {
      assert r[j] == s[j - 1];
      if i > 0 { assert r[i] == s[i - 1]; }
    }
  }

  /** A bound below `x` and below every key of `s` stays below every key after the insertion. */
  lemma {:induction false} InsertLowerBound(x: Task, s: seq<Task>, key: Task -> int, b: int)
    requires b <= key(x)
    requires forall i :: 0 <= i < |s| ==> b <= key(s[i])
    ensures forall i :: 0 <= i < |Insert(x, s, key)| ==> b <= key(Insert(x, s, key)[i])
  {
    var r := Insert(x, s, key);
    if s == [] || key(x) <= key(s[0]) {
      assert forall i :: 1 <= i < |r| ==> r[i] == s[i - 1];
    } else {
      InsertLowerBound(x, s[1..], key, b);
      assert forall i :: 1 <= i < |r| ==> r[i] == Insert(x, s[1..], key)[i - 1];
    }
  }

  lemma {:induction false} InsertSorted(x: Task, s: seq<Task>, key: Task -> int)
    requires SortedBy(s, key)
    ensures SortedBy(Insert(x, s, key), key)
  {
    if s == [] || key(x) <= key(s[0]) {
      ConsSorted(x, s, key);
    } else {
      var tail := Insert(x, s[1..], key);
      assert SortedBy(s[1..], key);
      InsertSorted(x, s[1..], key);
      assert forall i :: 0 <= i < |s[1..]| ==> key(s[0]) <= key(s[1..][i]) by {
        forall i | 0 <= i < |s[1..]| ensures key(s[0]) <= key(s[1..][i]) {
          assert s[1..][i] == s[i + 1];
        }
      }
      InsertLowerBound(x, s[1..], key, key(s[0]));
      ConsSorted(s[0], tail, key);
    }
  }

  /** The insertion passes only keys below `key(x)`, so among the tasks with any
      one key, `x` lands first. */
  lemma {:induction false} InsertStable(x: Task, s: seq<Task>, key: Task -> int, k: int)
    ensures WithKey(Insert(x, s, key), key, k) == (if key(x) == k then [x] else []) + WithKey(s, key, k)
  {
    var r := Insert(x, s, key);
    var mine := if key(x) == k then [x] else [];
    if s == [] || key(x) <= key(s[0]) {
      assert r[0] == x && r[1..] == s;
    } else {
      var tail := Insert(x, s[1..], key);
      InsertStable(x, s[1..], key, k);
      assert r[0] == s[0] && r[1..] == tail;
      var theirs := if key(s[0]) == k then [s[0]] else [];
      assert mine == [] || theirs == [];
      calc {
        WithKey(r, key, k);
        theirs + WithKey(tail, key, k);
        theirs + (mine + WithKey(s[1..], key, k));
        mine + (theirs + WithKey(s[1..], key, k));
        mine + WithKey(s, key, k);
      }
    }
  }

  lemma {:induction false} SortByKeyPermutes(s: seq<Task>, key: Task -> int)
    ensures multiset(SortByKey(s, key)) == multiset(s)
  {
    if s != [] {
      SortByKeyPermutes(s[1..], key);
      InsertPermutes(s[0], SortByKey(s[1..], key), key);
      assert s == [s[0]] + s[1..];
    }
  }

  lemma {:induction false} SortByKeySorted(s: seq<Task>, key: Task -> int)
    ensures SortedBy(SortByKey(s, key), key)
  {
    if s != [] {
      SortByKeySorted(s[1..], key);
      InsertSorted(s[0], SortByKey(s[1..], key), key);
    }
  }

  lemma {:induction false} SortByKeyStable(s: seq<Task>, key: Task -> int, k: int)
    ensures WithKey(SortByKey(s, key), key, k) == WithKey(s, key, k)
  {
    if s != [] {
      SortByKeyStable(s[1..], key, k);
      InsertStable(s[0], SortByKey(s[1..], key), key, k);
    }
  }

  /** The sort by `key` is a permutation, ordered by `key`, and stable: the tasks
      sharing a key keep their relative order. */
  lemma SortByKeyFacts(s: seq<Task>, key: Task -> int)
    ensures multiset(SortByKey(s, key)) == multiset(s)
    ensures SortedBy(SortByKey(s, key), key)
    ensures forall k :: WithKey(SortByKey(s, key), key, k) == WithKey(s, key, k)
  {
    SortByKeyPermutes(s, key);
    SortByKeySorted(s, key);
    forall k ensures WithKey(SortByKey(s, key), key, k) == WithKey(s, key, k) {
      SortByKeyStable(s, key, k);
    }
  }

  /** `sortTasks(tasks, sortBy)`: a sorted copy for the three known orders, the copy
      unchanged for any other. */
  function SortTasks(tasks: seq<Task>, sortBy: string): seq<Task>
  {
    if IsSortKey(sortBy) then SortByKey(tasks, KeyOf(sortBy)) else tasks
  }

  /** The result of every sort order is a permutation of its input, sorted and stable
      for the three known orders. */
  lemma SortTasksPermutes(tasks: seq<Task>, sortBy: string)
    ensures multiset(SortTasks(tasks, sortBy)) == multiset(tasks)
    ensures |SortTasks(tasks, sortBy)| == |tasks|
    ensures !IsSortKey(sortBy) ==> SortTasks(tasks, sortBy) == tasks
    ensures IsSortKey(sortBy) ==>
              forall k :: WithKey(SortTasks(tasks, sortBy), KeyOf(sortBy), k) == WithKey(tasks, KeyOf(sortBy), k)
  {
    if IsSortKey(sortBy) {
      SortByKeyFacts(tasks, KeyOf(sortBy));
    }
    assert |multiset(SortTasks(tasks, sortBy))| == |multiset(tasks)|;
  }

  /** The three orders spelled out on the tasks' own fields. */
  lemma SortTasksOrders(tasks: seq<Task>, sortBy: string)
    ensures sortBy == "dueDate" ==>
              var r := SortTasks(tasks, sortBy);
              forall i, j :: 0 <= i < j < |r| ==> DueKey(r[i]) <= DueKey(r[j])
    ensures sortBy == "priority" ==>
              var r := SortTasks(tasks, sortBy);
              forall i, j :: 0 <= i < j < |r| ==> PriorityRank(r[i].priority) >= PriorityRank(r[j].priority)
    ensures sortBy == "created" ==>
              var r := SortTasks(tasks, sortBy);
              forall i, j :: 0 <= i < j < |r| ==> r[i].createdAt >= r[j].createdAt
  {
    if IsSortKey(sortBy) {
      var key := KeyOf(sortBy);
      SortByKeyFacts(tasks, key);
      var r := SortTasks(tasks, sortBy);
      assert forall i, j :: 0 <= i < j < |r| ==> key(r[i]) <= key(r[j]);
    }
  }

  // ----- Kanban columns -----

  /** `getTasksByStatus(status)` as written: it calls `filterTasks` with two
      arguments, so `filters` is undefined and the call always throws. */
  function GetTasksByStatus(tasks: seq<Task>, c: CategoryFilter, sortBy: string, status: string): Outcome<seq<Task>>
  {
    match FilterTasks(tasks, c, "", Undefined)
    case Err => Err
    case Ok(filtered) => Ok(SortTasks(Where(filtered, StatusIs(status)), sortBy))
  }

  /** Rendering any column throws, whatever the tasks and the selected category. */
  lemma GetTasksByStatusAlwaysThrows(tasks: seq<Task>, c: CategoryFilter, sortBy: string, status: string)
    ensures GetTasksByStatus(tasks, c, sortBy, status) == Err
  {
    assert FilterTasks(tasks, c, "", Undefined) == Err;
  }

  /** The column as evidently intended: the list's filtered tasks with that status,
      in the chosen order. */
  function GetTasksByStatusIntended(tasks: seq<Task>, c: CategoryFilter, searchText: string, f: ListFilters,
                                    sortBy: string, status: string): seq<Task>
  {
    var filtered := FilterTasks(tasks, c, searchText, Given(f)).value;
    SortTasks(Where(filtered, StatusIs(status)), sortBy)
  }

  /** The intended column holds exactly the passing tasks with that status, as many
      as the status count of the filtered list. */
  lemma GetTasksByStatusIntendedSpec(tasks: seq<Task>, c: CategoryFilter, searchText: string, f: ListFilters,
                                     sortBy: string, status: string)
    ensures var col := GetTasksByStatusIntended(tasks, c, searchText, f, sortBy, status);
            && (forall t :: t in col <==> t in tasks && Passes(t, c, searchText, f) && t.status == status)
            && |col| == CountStatus(FilterTasks(tasks, c, searchText, Given(f)).value, status)
  {
    FilterTasksSpec(tasks, c, searchText, Given(f));
    var filtered := FilterTasks(tasks, c, searchText, Given(f)).value;
    var keep := StatusIs(status);
    WhereMembership(filtered, keep);
    WhereStatusCount(filtered, status, keep);
    SortTasksPermutes(Where(filtered, keep), sortBy);
    var col := GetTasksByStatusIntended(tasks, c, searchText, f, sortBy, status);
    forall t ensures t in col <==> t in Where(filtered, keep) {
      assert t in col <==> t in multiset(col);
    }
  }

  // ----- Local task-list updates -----

  /** `tasks.find(t => t.Id === id)`. */
  function FindTask(tasks: seq<Task>, id: int): (r: Option<Task>)
    ensures r.None? <==> forall i :: 0 <= i < |tasks| ==> tasks[i].Id != id
    ensures r.Some? ==> exists i :: 0 <= i < |tasks| && tasks[i] == r.value && r.value.Id == id
                                   && forall j :: 0 <= j < i ==> tasks[j].Id != id
  {
    if tasks == [] then None
    else if tasks[0].Id == id then Some(tasks[0])
    else
      var r := FindTask(tasks[1..], id);
      if r.Some? then
        var i :| 0 <= i < |tasks[1..]| && tasks[1..][i] == r.value && r.value.Id == id
                 && forall j :: 0 <= j < i ==> tasks[1..][j].Id != id;
        assert tasks[i + 1] == r.value;
        r
      else r
  }

  /** `prev.map(t => t.Id === id ? { ...t, status_c: status } : t)`. */
  function SetStatus(tasks: seq<Task>, id: int, status: string): (r: seq<Task>)
    ensures |r| == |tasks|
    ensures forall i :: 0 <= i < |tasks| ==> r[i] == if tasks[i].Id == id then tasks[i].(status := status) else tasks[i]
  {
    seq(|tasks|, i requires 0 <= i < |tasks| => if tasks[i].Id == id then tasks[i].(status := status) else tasks[i])
  }

  /** A status change leaves every id, and so the set of tasks with each id, alone. */
  lemma SetStatusKeepsIds(tasks: seq<Task>, id: int, status: string)
    ensures forall i :: 0 <= i < |tasks| ==> SetStatus(tasks, id, status)[i].Id == tasks[i].Id
    ensures forall i :: 0 <= i < |tasks| && tasks[i].Id == id ==> SetStatus(tasks, id, status)[i].status == status
    ensures SetStatus(SetStatus(tasks, id, status), id, status) == SetStatus(tasks, id, status)
  {
  }

  /** The drop position of a drag: a column and an index in it. */
  datatype Location = Location(droppableId: string, index: int)

  class TaskListState {
    var tasks: seq<Task>
    var showForm: bool

    constructor (loaded: seq<Task>)
      ensures tasks == loaded && !showForm
    {
      tasks := loaded;
      showForm := false;
    }

    /** `handleDragEnd({destination, source, draggableId})` with `draggableId` the
        task id. `answer` is how `taskService.update` settles. Returns the update
        payload when the update is made. */
    method HandleDragEnd(destination: Option<Location>, source: Location, draggableId: int, answer: Outcome<Task>)
      returns (request: Option<TaskUpdate>)
      modifies this`tasks
      ensures var guarded := destination.None? || destination.value == source || FindTask(old(tasks), draggableId).None?;
              && (guarded <==> request.None?)
              && (request.Some? ==>
                    request.value == UpdatePayload(FindTask(old(tasks), draggableId).value, destination.value.droppableId))
              && tasks == if request.Some? && answer.Ok? then SetStatus(old(tasks), draggableId, destination.value.droppableId)
                          else old(tasks)
    {
      if destination.None? {
        return None;
      }
      var dest := destination.value;
      if dest.droppableId == source.droppableId && dest.index == source.index {
        return None;
      }
      var task := FindTask(tasks, draggableId);
      if task.None? {
        return None;
      }
      var newStatus := dest.droppableId;
      request := Some(UpdatePayload(task.value, newStatus));
      if answer.Ok? {
        tasks := SetStatus(tasks, draggableId, newStatus);
      }
    }

    /** `handleCreateTask(taskData)`: the created task goes first and the form
        closes; a failed create leaves everything as it was and is rethrown. */
    method HandleCreateTask(answer: Outcome<Task>) returns (rethrown: bool)
      modifies this`tasks, this`showForm
      ensures rethrown <==> answer.Err?
      ensures answer.Ok? ==> tasks == [answer.value] + old(tasks) && !showForm
      ensures answer.Err? ==> tasks == old(tasks) && showForm == old(showForm)
    {
      if answer.Err? {
        return true;
      }
      tasks := [answer.value] + tasks;
      showForm := false;
      return false;
    }
  }
}
