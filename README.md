# NexusFlow task manager — a Dafny model of its core

NexusFlow is a browser task manager. Tasks carry a title, due date, priority,
status ("To Do", "In Progress", "Done") and category. Reminders carry a time and
a status ("Scheduled", "Sent"). A notification system does three things:

- it polls for due reminders;
- it shows each one as a native browser notification or an in-app banner;
- it records each one in a notification log kept in the Redux store.

This project models the store slice, the dispatcher service, the polling hook,
and the page and component handlers that filter, sort, group and edit tasks,
categories and reminders. It then proves what those handlers promise.

The layout follows the program, one module per source file:

- `Wrappers` and `Text` are support modules. `Text` covers ASCII lowercase, substring search, trimming and decimal rendering.
- `SeqFilter` defines `Array.prototype.filter` as `Where`, with its lemmas.
- `Records` holds the task, reminder and category records, and the `{ Id }` lookup objects ids come wrapped in.
- `NotificationSlice` is the Redux slice, as a class whose reducers are methods.
- `NotificationDispatch` is the browser-notification service, as a class over the permission state.
- `ReminderPoll` is one `checkDueReminders` cycle plus `requestNotificationPermission`.
- `TaskList`, `FilterPanel`, `CategoriesPage`, `TaskForm`, `ReminderList`, `CalendarPage`, `NotificationCenter` and `TaskItem` are the components.

How the model treats the outside world:

- **Store calls.** Every call to a data service (`taskService`, `reminderService`, `categoryService`) is modelled by the answer it gives. That answer is an `Outcome` parameter: `Ok(value)`, or `Err` when the promise rejects. A method that stands for a handler returns the request it would send.
- **State around awaits.** The state a handler leaves is its state after the awaited call settles.
- **Waits that span other handler calls.** `TaskItem` splits those handlers into `Begin…` and `Finish…`.
- **Times.** Times are integer milliseconds. A calendar day is `t / 86400000`. A month is an integer count of months. The locale rendering of a date is a function parameter.
- **The poll cycle.** A cycle's effects are listed as `Effect` values (display, log record, mark sent), in order. They are specified by the reference function `Blocks`, applied to the reminders the cycle reaches.

## Model

| member | source | states |
|---|---|---|
| Records.LookupId | src/hooks/useNotificationSystem.js:21 | `x?.Id \|\| x`: a bare id is used as is; a linked object gives its Id unless that Id is 0, which falls through to the object (no usable id); null gives none |
| Records.CountStatus | src/components/pages/CalendarPage.jsx:247-259 | the number of tasks with a status never exceeds the number of tasks |
| Records.WhereStatusCount | src/components/pages/CalendarPage.jsx:247-259 | the length of `tasks.filter(t => t.status_c === s)` is the status count, for any test equivalent to the status comparison |
| Records.CategoryTaskCount | src/components/organisms/TaskList.jsx:170-175 | the count of tasks whose category id (linked or bare) matches is at most the number of tasks, and is 0 exactly when no task has that category |
| Records.UpdatePayload | src/components/organisms/TaskList.jsx:69-75 | the update sent for a status change carries the new status |
| Records.UpdatePayloadOnlyStatus | src/components/molecules/TaskItem.jsx:20-26 | the update copies the task's other fields unchanged: only the status differs from the task's own payload, and the category is the task's resolved category id |
| NotificationSlice.Floor0 | src/store/notificationSlice.js:29 | `Math.max(0, x)`: never negative, and equal to x when x is not negative |
| NotificationSlice.FromPayload | src/store/notificationSlice.js:15-24 | a new record takes the payload's id, or the clock reading when none is given; it is read only when the payload says so; kind, title, message and the task and reminder ids are copied |
| NotificationSlice.UnreadCount | src/store/notificationSlice.js:3-54 | the number of unread records is at most the number of records |
| NotificationSlice.FindIndex | src/store/notificationSlice.js:26-39 | `find`/`findIndex` by id: the first position holding that id, or -1 exactly when no record has it |
| NotificationSlice.UnreadCountAppend | src/store/notificationSlice.js:15-24 | the unread count of two lists joined is the sum of their counts |
| NotificationSlice.UnreadCountMarkOne | src/store/notificationSlice.js:25-31 | marking one unread record read lowers the unread count by exactly one |
| NotificationSlice.UnreadCountRemove | src/store/notificationSlice.js:38-47 | removing a record lowers the unread count by one exactly when that record was unread |
| NotificationSlice.MarkAllHasNoUnread | src/store/notificationSlice.js:32-37 | after marking all records read, none is unread |
| NotificationSlice.MarkAllIdempotent | src/store/notificationSlice.js:32-37 | marking all read twice is marking all read once, and it keeps the records, their number and their order |
| NotificationSlice.UnreadCountTrim | src/store/notificationSlice.js:48-54 | keeping the first 50 records loses exactly the unread records beyond them |
| NotificationSlice.NotificationState.constructor | src/store/notificationSlice.js:3-9 | the initial state: no records, counter 0, centre closed, permission neither requested nor granted; the counter matches the records |
| NotificationSlice.NotificationState.AddNotification | src/store/notificationSlice.js:15-24 | the new record goes first, with its id defaulted to the clock; the counter rises by one; a record that is not added as read keeps counter and records consistent |
| NotificationSlice.NotificationState.MarkAsRead | src/store/notificationSlice.js:25-31 | an unread record with that id becomes read and the counter drops by one, but never below 0; a record that is missing or already read changes nothing; consistency is preserved |
| NotificationSlice.NotificationState.MarkAllAsRead | src/store/notificationSlice.js:32-37 | every record becomes read, the counter is 0, and the state is consistent whatever it was before |
| NotificationSlice.NotificationState.RemoveNotification | src/store/notificationSlice.js:38-47 | the first record with that id is removed, and the counter drops when it was unread; a missing id changes nothing; consistency is preserved |
| NotificationSlice.NotificationState.ClearOldNotifications | src/store/notificationSlice.js:48-54 | beyond 50 records only the newest 50 are kept, and the counter loses the dropped unread ones (floored at 0); at most 50 changes nothing; consistency is preserved |
| NotificationSlice.NotificationState.SetNotificationCenterOpen | src/store/notificationSlice.js:55-57 | sets the centre-open flag and nothing else |
| NotificationSlice.NotificationState.SetPermissionRequested | src/store/notificationSlice.js:58-60 | sets the permission-requested flag and nothing else |
| NotificationSlice.NotificationState.SetPermissionGranted | src/store/notificationSlice.js:61-63 | sets the permission-granted flag and nothing else |
| NotificationDispatch.ReminderTagInjective | src/services/notificationService.js:46 | the tag `task-<id>` is different for different task ids, so a newer reminder replaces only the same task's notification |
| NotificationDispatch.BannerStyle | src/services/notificationService.js:88-95 | a banner has a style for exactly the four kinds info, success, warning and error |
| NotificationDispatch.ShowInAppNotification | src/services/notificationService.js:83-125 | the banner shows the given title and message in its kind's style, and is removed after `duration` exactly when that is positive |
| NotificationDispatch.DefaultBannerIsRemoved | src/services/notificationService.js:83 | with the default duration the banner is removed after 5000 ms |
| NotificationDispatch.TaskReminder | src/services/notificationService.js:31-62 | a native notification is made exactly when it is supported and the permission is granted; it carries the task's title, the tag for its id, and the task and reminder ids as data |
| NotificationDispatch.NotificationService.constructor | src/services/notificationService.js:3-6 | the permission and support flags start as the platform reports them |
| NotificationDispatch.NotificationService.RequestPermission | src/services/notificationService.js:8-29 | unsupported: throws and changes nothing. Granted: resolves true without asking. Denied: throws without asking. Default: asks once, stores the answer, and resolves true only on a grant (otherwise throws). Resolving always means granted. |
| NotificationDispatch.GrantedAndRequestableExclusive | src/services/notificationService.js:130-139 | permission can be requested exactly while it is undecided, and is granted exactly when granted; never both |
| ReminderPoll.DueRemindersAreDue | src/services/api/reminderService.js:260-271 | the due query returns exactly the reminders still scheduled whose time is at or before now |
| ReminderPoll.ReminderPayload | src/hooks/useNotificationSystem.js:37-43 | the record logged for a reminder has kind "reminder", the task's and the reminder's ids, and no id, read flag or timestamp of its own |
| ReminderPoll.BlockShape | src/hooks/useNotificationSystem.js:21-48 | handling one reminder does nothing when the task is not found; otherwise it shows it and then logs it, with at most three effects, all about that reminder |
| ReminderPoll.FirstThrow | src/hooks/useNotificationSystem.js:16-52 | the first reminder whose handling throws: every reminder before it completes |
| ReminderPoll.BlocksAppend | src/hooks/useNotificationSystem.js:19 | the loop's effects are the effects of each reminder in turn |
| ReminderPoll.LoggedPayloadsAppend | src/hooks/useNotificationSystem.js:37-43 | the logged records of two runs of effects are those of each, in order |
| ReminderPoll.SentIdsAppend | src/hooks/useNotificationSystem.js:46-48 | the reminders marked sent by two runs of effects are those of either |
| ReminderPoll.NewestFirstAt | src/store/notificationSlice.js:15-24 | after n records are added one by one, the log's i-th record is the (n-1-i)-th one added, stamped with its own clock reading |
| ReminderPoll.MarkSentUnion | src/hooks/useNotificationSystem.js:46-48 | marking reminders sent in two steps equals marking them in one |
| ReminderPoll.NewestFirstAppend | src/store/notificationSlice.js:15-24 | one more record is added in front of the log |
| ReminderPoll.BlockContribution | src/hooks/useNotificationSystem.js:21-48 | a skipped reminder adds nothing; a found one adds exactly its own log record; it is marked sent exactly when found and its update does not throw |
| ReminderPoll.CycleStep | src/hooks/useNotificationSystem.js:16-52 | one step of the loop extends the effects by that reminder's; a throwing reminder is the first to throw and ends the attempted run |
| ReminderPoll.CycleAdvance | src/hooks/useNotificationSystem.js:19-48 | the loop's state after one more reminder: the table marked with the union of sent ids, and effects that equal the reference effects of the reminders reached so far |
| ReminderPoll.SentIdsOfBlocks | src/hooks/useNotificationSystem.js:21-48 | the reminders the loop marks Sent are exactly those reached whose task is found and whose status update does not throw |
| ReminderPoll.CycleMarksSent | src/hooks/useNotificationSystem.js:16-52 | every reminder before the first throw whose task is found is marked Sent; a found reminder whose update threw stays unmarked; only reached, found reminders with a successful update are marked, so later ones are untouched |
| ReminderPoll.HandleReminder | src/hooks/useNotificationSystem.js:21-48 | one loop iteration: its effects are that reminder's block; it throws exactly as the reference says; the table, log and counter advance by the block; consistency is preserved |
| ReminderPoll.NotifyFound | src/hooks/useNotificationSystem.js:24-48 | for a found task: the display, one log record in front, a counter one higher, and the reminder marked sent unless its update throws |
| ReminderPoll.HandleDue | src/hooks/useNotificationSystem.js:19-52 | the loop over the due reminders: the effects are those of the reminders up to and including the first that throws (or all of them), and the cycle aborts exactly when one throws; the table, log and counter match those effects |
| ReminderPoll.CheckDueReminders | src/hooks/useNotificationSystem.js:15-53 | a whole cycle: a failing due query does nothing. Otherwise it behaves as HandleDue, and the table marks Sent exactly the reached reminders whose task is found and whose update succeeds. The log holds the new records newest first, in front of the old ones. |
| ReminderPoll.RequestNotificationPermission | src/hooks/useNotificationSystem.js:55-69 | returns and stores true exactly when notifications are supported and were already granted or were granted on asking; every failure stores false; the service keeps its permission unless it was undecided and supported, in which case it takes the user's answer (also when refused) |
| TaskList.FromPanel | src/components/molecules/FilterPanel.jsx:14-27 | the panel's filters reach the list as given lists and range |
| TaskList.StageIsWhere | src/components/organisms/TaskList.jsx:125-168 | a guarded filter stage (`if (active) filtered = filtered.filter(test)`) is one filter by the guarded test |
| TaskList.StageAfter | src/components/organisms/TaskList.jsx:125-168 | a stage applied after a filter is one filter by both tests |
| TaskList.GatesArePasses | src/components/organisms/TaskList.jsx:125-168 | the conjunction of the five guarded tests is the combined pass test |
| TaskList.FilterTasksIsWhere | src/components/organisms/TaskList.jsx:125-168 | with filters given, filterTasks keeps, in order, exactly the tasks passing the category, search, priority, status and date tests |
| TaskList.FilterTasksSpec | src/components/organisms/TaskList.jsx:125-168 | filterTasks throws exactly when no filters object is passed. Otherwise a task is kept iff it passes every test: category (129-134), case-insensitive search in the title or the `Name` field (137-143), listed priority (146-148), listed status (150-152), date range (154-165). The result is an in-order subsequence. |
| TaskList.FilterTasksIdentity | src/components/organisms/TaskList.jsx:125-168 | with every category, no search text and no active filter, all tasks are kept |
| TaskList.ClearedPanelFiltersNothing | src/components/molecules/FilterPanel.jsx:57-69 | a panel with no active filter filters the list exactly as no panel does |
| TaskList.PriorityRank | src/components/organisms/TaskList.jsx:108-110 | a rank from 0 to 3, which is 0 exactly for a value outside High, Medium and Low |
| TaskList.PriorityOrder | src/components/organisms/TaskList.jsx:109 | the `priorityOrder` table: High 3, Medium 2, Low 1, so High ranks above Medium above Low above any unknown value |
| TaskList.InsertPermutes | src/components/organisms/TaskList.jsx:103-116 | inserting a task adds exactly that task |
| TaskList.ConsSorted | src/components/organisms/TaskList.jsx:103-116 | a task no greater than every element of a sorted list can go in front |
| TaskList.InsertLowerBound | src/components/organisms/TaskList.jsx:103-116 | inserting keeps a common lower bound on the keys |
| TaskList.InsertSorted | src/components/organisms/TaskList.jsx:103-116 | inserting into a sorted list keeps it sorted |
| TaskList.InsertStable | src/components/organisms/TaskList.jsx:103-116 | inserting puts the new task in front of the tasks with an equal key |
| TaskList.SortByKeyPermutes | src/components/organisms/TaskList.jsx:103-116 | sorting is a permutation |
| TaskList.SortByKeySorted | src/components/organisms/TaskList.jsx:103-116 | sorting orders by the key |
| TaskList.SortByKeyStable | src/components/organisms/TaskList.jsx:103-116 | sorting is stable: tasks with an equal key keep their order, as `Array.prototype.sort` guarantees |
| TaskList.SortByKeyFacts | src/components/organisms/TaskList.jsx:103-116 | the three together: a stable, ordered permutation |
| TaskList.SortTasksPermutes | src/components/organisms/TaskList.jsx:103-116 | sortTasks keeps exactly the tasks given; an unknown sort option leaves the list as it is; a known one is stable |
| TaskList.SortTasksOrders | src/components/organisms/TaskList.jsx:103-116 | "dueDate" sorts earliest first, "priority" highest first, "created" newest first |
| TaskList.GetTasksByStatusAlwaysThrows | src/components/organisms/TaskList.jsx:118-122 | as written, every column throws, because filterTasks is called without filters |
| TaskList.GetTasksByStatusIntendedSpec | src/components/organisms/TaskList.jsx:118-122 | the intended column holds exactly the passing tasks with that status, as many as the status count of the filtered list |
| TaskList.FindTask | src/components/organisms/TaskList.jsx:60-62 | `find` by Id: none exactly when no task has that Id; otherwise a task of the list with that Id |
| TaskList.SetStatus | src/components/organisms/TaskList.jsx:78-82 | the status of every task with that Id is set; every other task is left as it is |
| TaskList.SetStatusKeepsIds | src/components/organisms/TaskList.jsx:78-82 | the update keeps every Id and position, gives the moved task its new status, and applying it twice is applying it once |
| TaskList.TaskListState.constructor | src/components/organisms/TaskList.jsx:19-44 | the loaded tasks, with the form closed |
| TaskList.TaskListState.HandleDragEnd | src/components/organisms/TaskList.jsx:48-89 | no update is sent for a drop outside a column, a drop back in place, or an unknown task. Otherwise the payload is the task with the new status; the list changes, by setting that status, only when the update succeeds. |
| TaskList.TaskListState.HandleCreateTask | src/components/organisms/TaskList.jsx:91-101 | a created task goes first and the form closes; a failure changes nothing and is rethrown |
| FilterPanel.InitialDefaults | src/components/molecules/FilterPanel.jsx:14-19 | with no initial filters the panel starts cleared, with no active filter |
| FilterPanel.InitialSuppliedWins | src/components/molecules/FilterPanel.jsx:14-19 | the defaults are overridden by every supplied key: all keys supplied give exactly that filter object, and each supplied key is taken whatever the others are |
| FilterPanel.WithoutDropsAll | src/components/molecules/FilterPanel.jsx:29-45 | `filter(x => x !== v)` keeps everything but v, in order, dropping every copy of v; without v the list is unchanged |
| FilterPanel.WithoutAppend | src/components/molecules/FilterPanel.jsx:29-45 | removing a value from two lists joined removes it from each |
| FilterPanel.ToggleFlipsMembership | src/components/molecules/FilterPanel.jsx:29-45 | a toggle flips whether the value is in the list and leaves every other value's membership alone |
| FilterPanel.ToggleTwiceRestores | src/components/molecules/FilterPanel.jsx:29-45 | toggling a value not in the list twice gives the list back |
| FilterPanel.TogglePriority | src/components/molecules/FilterPanel.jsx:29-36 | a priority toggle flips that priority and leaves statuses and dates unchanged |
| FilterPanel.ToggleStatus | src/components/molecules/FilterPanel.jsx:38-45 | a status toggle flips that status and leaves priorities and dates unchanged |
| FilterPanel.SetDateRange | src/components/molecules/FilterPanel.jsx:47-55 | sets one end of the range and leaves the other end and the lists unchanged |
| FilterPanel.ClearAll | src/components/molecules/FilterPanel.jsx:57-63 | clearing empties both lists and both dates |
| FilterPanel.ClearAllHasNoActive | src/components/molecules/FilterPanel.jsx:57-69 | after clearing the active count is 0 |
| FilterPanel.NoActiveIffCleared | src/components/molecules/FilterPanel.jsx:65-69 | the active count is 0 exactly when the filters are the cleared ones |
| FilterPanel.TogglePriorityCount | src/components/molecules/FilterPanel.jsx:29-36 | a priority toggle adds one to the count, or removes every copy of the value |
| FilterPanel.ToggleStatusCount | src/components/molecules/FilterPanel.jsx:38-45 | a status toggle adds one to the count, or removes every copy of the value |
| CategoriesPage.Validate | src/components/pages/CategoriesPage.jsx:57-70 | a name error exactly when the trimmed name is empty; a colour error exactly when no colour is set |
| CategoriesPage.ValidIffFilled | src/components/pages/CategoriesPage.jsx:57-70 | the form is valid exactly when the name has a non-blank character and a colour is set |
| CategoriesPage.ReplaceByIdOnlyThatId | src/components/pages/CategoriesPage.jsx:80-86 | `map(c => c.Id === id ? updated : c)` replaces exactly the entries with that Id, and keeps the length, the other entries and their Ids |
| CategoriesPage.RemoveByIdExact | src/components/pages/CategoriesPage.jsx:126 | removal keeps exactly the other categories, in order; an absent Id changes nothing |
| CategoriesPage.CategoriesPageState.constructor | src/components/pages/CategoriesPage.jsx:18-30 | the loaded data, form closed and empty (default colour), no errors |
| CategoriesPage.CategoriesPageState.HandleSubmit | src/components/pages/CategoriesPage.jsx:72-101 | errors are the validation of the form. A request is sent exactly when there are none: an update of the edited category, or a create. On success the list is updated and the form reset; otherwise the list, form and editing state are unchanged. |
| CategoriesPage.CategoriesPageState.Save | src/components/pages/CategoriesPage.jsx:76-99 | the guarded save: update replaces by Id (80-86), create prepends (87-91), success resets the form (93-95), and submitting ends false |
| CategoriesPage.CategoriesPageState.HandleEdit | src/components/pages/CategoriesPage.jsx:103-111 | editing loads the category's name and colour into an open form with no errors |
| CategoriesPage.CategoriesPageState.HandleDelete | src/components/pages/CategoriesPage.jsx:112-131 | a category in use by any task is never deleted, and nothing is asked; otherwise a removal is sent exactly when confirmed; a successful removal drops exactly that Id |
| CategoriesPage.CategoriesPageState.HandleCancel | src/components/pages/CategoriesPage.jsx:133-138 | cancelling closes and empties the form and clears editing and errors |
| CategoriesPage.CategoriesPageState.HandleFormChange | src/components/pages/CategoriesPage.jsx:140-145 | setting a field clears only that field's error |
| TaskForm.FirstCategory | src/components/organisms/TaskForm.jsx:27-28 | the first category's Id when there is one, otherwise the empty choice |
| TaskForm.BlankForm | src/components/organisms/TaskForm.jsx:70-75 | a blank form has an empty title, today's date, Medium priority and the first category |
| TaskForm.Validate | src/components/organisms/TaskForm.jsx:47-60 | a title error exactly when the trimmed title is empty; a date error exactly when no date is given |
| TaskForm.ValidIffFilled | src/components/organisms/TaskForm.jsx:47-60 | the form is valid exactly when the title has a non-blank character and a date is given |
| TaskForm.LoadedChoice | src/components/organisms/TaskForm.jsx:26-28 | intended: a chosen category is kept, and an unset one defaults to the first category |
| TaskForm.LoadedChoiceAsWrittenOverwrites | src/components/organisms/TaskForm.jsx:22-38 | as written, a category chosen while a load is in flight (7) is replaced by the first loaded one (3), where the intended rule keeps 7; latent in the form as rendered, since the select offers no category until a load completes |
| TaskForm.LoadedChoiceAsWrittenIgnoresCurrent | src/components/organisms/TaskForm.jsx:22-38 | as written, whenever categories exist the first one is chosen; this agrees with the intended rule only when nothing, or that category, was chosen |
| TaskForm.TaskFormState.constructor | src/components/organisms/TaskForm.jsx:12-20 | the initial form: empty title, today, Medium, no category; no errors, not submitting |
| TaskForm.TaskFormState.LoadCategoriesAsWritten | src/components/organisms/TaskForm.jsx:22-38 | as written: the loaded categories are stored, and the category choice follows the mount-time test; a failed load changes nothing |
| TaskForm.TaskFormState.LoadCategories | src/components/organisms/TaskForm.jsx:22-34 | corrected: the loaded categories are stored, and the default applies only while the current choice is unset |
| TaskForm.TaskFormState.HandleChange | src/components/organisms/TaskForm.jsx:40-45 | setting a text field clears only that field's error (priority has none) |
| TaskForm.TaskFormState.HandleCategoryChange | src/components/organisms/TaskForm.jsx:40-45 | setting the category changes only the category |
| TaskForm.TaskFormState.HandleSubmit | src/components/organisms/TaskForm.jsx:62-81 | errors are the validation of the form. The fields are submitted exactly when valid. The form resets to blank only when the submit succeeds, and submitting ends false. |
| ReminderList.RowLabel | src/components/molecules/ReminderList.jsx:160-197 | Overdue exactly for a scheduled reminder whose time has passed; otherwise Completed exactly when sent, and Scheduled for the rest |
| ReminderList.OverdueIsDue | src/components/molecules/ReminderList.jsx:160 | an overdue row is one the poller finds due, except at the very instant of its time |
| ReminderList.SentIsCompleted | src/components/molecules/ReminderList.jsx:196-197 | a sent reminder always shows as Completed |
| ReminderList.DeleteExact | src/components/molecules/ReminderList.jsx:62-74 | deleting keeps exactly the other reminders, in order |
| ReminderList.ReminderListState.constructor | src/components/molecules/ReminderList.jsx:9-13 | no reminders, not loading, form closed, time input empty |
| ReminderList.ReminderListState.LoadReminders | src/components/molecules/ReminderList.jsx:15-27 | queries exactly when the task id is truthy; a successful query replaces the list; loading ends false |
| ReminderList.ReminderListState.HandleAddReminder | src/components/molecules/ReminderList.jsx:33-60 | an empty time sends nothing. Otherwise the request carries the task and the time. A created reminder goes last, and the input clears and the form closes; a failure changes nothing. |
| ReminderList.ReminderListState.HandleDeleteReminder | src/components/molecules/ReminderList.jsx:62-74 | a reminder is removed exactly when confirmed and the removal succeeds, and then exactly that Id goes |
| CalendarPage.PaddingDays | src/components/pages/CalendarPage.jsx:80-84 | the `startPadding` days just before the first, earliest first |
| CalendarPage.MonthDays | src/components/pages/CalendarPage.jsx:74-76 | the month's days, from the first on |
| CalendarPage.AllDaysConsecutive | src/components/pages/CalendarPage.jsx:74-86 | the grid is an unbroken run of days that starts `startPadding` days before the first; the padding ends the day before the first |
| CalendarPage.WeeksFlatten | src/components/pages/CalendarPage.jsx:86-90 | reading the rows in order gives back the days |
| CalendarPage.WeeksShape | src/components/pages/CalendarPage.jsx:86-90 | every row but the last has seven days; the last has one to seven; there are ⌈n/7⌉ rows |
| CalendarPage.ChunkWeeks | src/components/pages/CalendarPage.jsx:86-90 | the slicing loop produces exactly the rows of seven |
| CalendarPage.TasksForDaySpec | src/components/pages/CalendarPage.jsx:43-48 | a day lists exactly the tasks due on it, in list order; an undated task is listed under no day |
| CalendarPage.TasksForDayDisjoint | src/components/pages/CalendarPage.jsx:43-48 | no task is listed under two days |
| CalendarPage.CapAccountsForAll | src/components/pages/CalendarPage.jsx:172-213 | at most the first three tasks are shown; "+k more" appears exactly when there are more, and shown plus k is all of the day's tasks |
| CalendarPage.StatusTotals | src/components/pages/CalendarPage.jsx:247-259 | each stat counts the tasks with exactly that status; the three stats sum to at most the number of tasks, and to exactly that number iff every task has one of the three statuses |
| CalendarPage.CountTotals | src/components/pages/CalendarPage.jsx:247-259 | the same totals stated on the status counts |
| CalendarPage.ShiftRoundTrip | src/components/pages/CalendarPage.jsx:63-69 | going back a month and then forward returns to the same month, and so does any move followed by its opposite |
| CalendarPage.CalendarState.constructor | src/components/pages/CalendarPage.jsx:19 | the calendar starts at the current month |
| CalendarPage.CalendarState.NavigateMonth | src/components/pages/CalendarPage.jsx:63-69 | "prev" moves back one month; anything else moves forward one |
| NotificationCenter.IconFor | src/components/molecules/NotificationCenter.jsx:55-66 | bell, alert and check icons for exactly reminder, task_due and task_completed |
| NotificationCenter.ColourFor | src/components/molecules/NotificationCenter.jsx:68-79 | blue, orange and green for exactly reminder, task_due and task_completed |
| NotificationCenter.IconAndColourAgree | src/components/molecules/NotificationCenter.jsx:55-79 | the fallback icon and the fallback colour go with exactly the same kinds, the ones outside the three |
| NotificationCenter.PlanClick | src/components/molecules/NotificationCenter.jsx:35-44 | a click marks a record read exactly when it is unread. It navigates to the record's task, and closes the panel, exactly when the task id is truthy and navigation is possible. |
| NotificationCenter.UnreadCountPositive | src/components/molecules/NotificationCenter.jsx:103 | the unread count is positive exactly when some record is unread |
| NotificationCenter.MarkAllShownIffUnread | src/components/molecules/NotificationCenter.jsx:103 | in a consistent store, "Mark all read" is offered exactly when some record is unread |
| NotificationCenter.HandleNotificationClick | src/components/molecules/NotificationCenter.jsx:35-44 | the click plan; the store changes only for an unread record, as markAsRead does; consistency is preserved |
| NotificationCenter.HandleMarkAllRead | src/components/molecules/NotificationCenter.jsx:46-48 | all read, the counter 0, and the button no longer offered |
| NotificationCenter.HandleRemoveNotification | src/components/molecules/NotificationCenter.jsx:50-53 | the first record with that id is removed, and the counter drops by one (floored at 0) when it was unread; an absent id changes nothing; consistency is preserved |
| TaskItem.OverdueFacts | src/components/molecules/TaskItem.jsx:69 | a done or undated task is never overdue; an overdue task stays overdue as time passes; completing it clears overdue |
| TaskItem.TaskItemState.constructor | src/components/molecules/TaskItem.jsx:11-13 | neither an update nor a delete in flight |
| TaskItem.TaskItemState.BeginStatusChange | src/components/molecules/TaskItem.jsx:15-26 | ignored while an update is in flight; otherwise raises the flag and sends the task with the new status |
| TaskItem.TaskItemState.FinishStatusChange | src/components/molecules/TaskItem.jsx:27-32 | the flag always drops (`finally`); success is reported exactly when the update succeeded |
| TaskItem.TaskItemState.BeginDelete | src/components/molecules/TaskItem.jsx:35-44 | a removal is sent exactly when none is in flight and the user confirms; then the flag rises |
| TaskItem.TaskItemState.FinishDelete | src/components/molecules/TaskItem.jsx:45-51 | the flag always drops; success is reported exactly when the removal succeeded |
| TaskItem.DoubleClickSendsOnce | src/components/molecules/TaskItem.jsx:15-17 | two status changes with no settlement between them send one update, the first |
| Text.TrimEmptyIffBlank | src/components/pages/CategoriesPage.jsx:60 | `trim()` is empty exactly when every character is white space |
| Text.IntToStringInjective | src/services/notificationService.js:46 | distinct integers render as distinct decimal strings |

## Left out

- DOM rendering, styling, icons, `toast` messages, `console` logging and the router are not modelled. Callbacks such as `onClose`, `onNavigateToTask`, `onSubmit`, `onCancel` and `onReminderAdded` are not modelled either; the model reports that a callback is called instead of performing it.
- Timers are not modelled: the 30-second `setInterval` of the notification hook, the banner's `setTimeout` removal, and the slice's `timestamp` clock. A clock reading is a parameter instead. Cycles that overlap, or handlers that interleave beyond the `Begin…`/`Finish…` split, are not modelled.
- The hook's mount effect calls `isSupported()` on a value that is a boolean, which is a TypeError; the mount-time wiring is not part of this model. `requestNotificationPermission` and `checkDueReminders` are modelled on their own.
- Dates are integer milliseconds. A calendar day is the UTC day `t / 86400000`. A month is a month count, and its first day's weekday and length are inputs. `date-fns` formatting and the locale's `toLocaleDateString` are abstracted as a function parameter.
- `Text.Lower`, `Text.Trim`: ASCII only; Unicode case mapping and Unicode white space are not modelled.
- TaskList.SortTasks: a missing due date sorts as the epoch (`new Date(null)`), and an unknown priority ranks 0, below Low. In the source, an unknown priority gives `NaN` from the comparator, and that order is engine-defined.
- The `parseInt` of a drag id or a category choice is abstracted: the model receives the integer, and the failed parse that would give `NaN` is not modelled.
- ReminderPoll.DueReminders: the hosted store's result order is taken to be table order. The store's own ordering and paging are not visible in the source.
- ReminderPoll.CheckDueReminders: showing a notification is taken not to throw. A failure of the `Notification` constructor or of the DOM banner is not modelled.
- The Done-percentage bar (a floating-point ratio), search-match highlighting (a regex), attachments, the sidebar and the header are not part of this model.
- `window.confirm` is a boolean parameter.
- The data services' wrappers around the hosted API are not part of this model. An `Outcome` stands for what each call resolves or rejects with, and a resolved `null` or `undefined` record from create and update is not modelled.
- The pages' `loadData` (parallel loads and error banners) is reduced to the constructor's loaded data. Category look-ups used only for rendering are not modelled.
- CalendarPage `getTaskStatusColor` only styles a cell, so it is not modelled.
- TaskItem.TaskItemState.BeginStatusChange: the flag is read after the previous call raised it. A second click that arrives before React re-renders, and so reads the stale `isUpdating`, is not modelled.
- ReminderPoll.TaskLookup: a reminder with no usable task id (a null `task_c_id_c`, or a linked object whose Id is 0) is taken to make `getById` throw. The service would pass `parseInt` of it, which is `NaN`, to the hosted client, and the client's real answer is not visible.
- FilterPanel.Initial: an initial key that is present but `null` is read as absent; the source would keep the `null`.
- TaskForm.LoadedChoice: only the empty choice counts as unset. A category Id of 0, which JavaScript treats as falsy, is not given special treatment.
- ReminderList `getDefaultReminderTime` only sets a default in the input, so it is not modelled.

## Findings

| source | as written | input that shows it | evidently intended | confidence | as-written member | corrected member |
|---|---|---|---|---|---|---|
| src/components/organisms/TaskList.jsx:118-122 | `getTasksByStatus` calls `filterTasks(tasks, selectedCategory)` with two arguments. `filters` is then undefined, and `filters.priorities` (line 146) throws. | any task list, e.g. `[]`, and status "To Do" when the board renders its columns | pass the search text and panel filters, then keep that status and sort | not executed | TaskList.GetTasksByStatusAlwaysThrows | TaskList.GetTasksByStatusIntendedSpec |
| src/components/organisms/TaskForm.jsx:22-38 | `loadCategories` is captured by the mount effect. It tests the mount-time `formData.categoryId` (always empty), so the first category overwrites any choice already made when the load completes. | latent: the select lists only "No Category" until `setCategories` runs (lines 25 and 144-155), so a choice can exist only while a second load is still in flight, as when the mount effect runs twice (React StrictMode in development). With both loads returning `[Category 3, Category 7]`: the first completes, the user picks 7, the second completes and the form ends with 3 | default to the first category only while the current choice is unset | not executed; latent | TaskForm.LoadedChoiceAsWrittenOverwrites | TaskForm.TaskFormState.LoadCategories |
