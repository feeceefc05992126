/** The calendar page: the month grid (leading padding days, the month's days,
    rows of seven), the tasks listed under a day, the three-task cap, month
    navigation and the status totals. A day is an integer day number; the weekday
    of the month's first day is given. */
module CalendarPage {
  import opened Wrappers
  import opened Records
  import opened SeqFilter

  const MsPerDay := 86400000
  const DaysPerWeek := 7
  const MaxShown := 3

  /** The day a due time falls on. */
  function DayOf(t: int): int
  {
    t / MsPerDay
  }

  // ----- Grid -----

  /** The `startPadding` days just before the first of the month, earliest first. */
  function PaddingDays(monthStart: int, startPadding: nat): (p: seq<int>)
    ensures |p| == startPadding
    ensures forall i :: 0 <= i < startPadding ==> p[i] == monthStart - (startPadding - i)
  {
    seq(startPadding, i requires 0 <= i < startPadding => monthStart - (startPadding - i))
  }

  /** `eachDayOfInterval` over the month. */
  function MonthDays(monthStart: int, daysInMonth: nat): (d: seq<int>)
    ensures |d| == daysInMonth
    ensures forall i :: 0 <= i < daysInMonth ==> d[i] == monthStart + i
  {
    seq(daysInMonth, i requires 0 <= i < daysInMonth => monthStart + i)
  }

  function AllDays(monthStart: int, startPadding: nat, daysInMonth: nat): seq<int>
  {
    PaddingDays(monthStart, startPadding) + MonthDays(monthStart, daysInMonth)
  }

  /** The grid is an unbroken run of days starting `startPadding` days before the
      first; the padding days all come before the month and the last of them is the
      day before the first. */
  lemma AllDaysConsecutive(monthStart: int, startPadding: nat, daysInMonth: nat)
    requires startPadding < DaysPerWeek
    ensures var all := AllDays(monthStart, startPadding, daysInMonth);
            && |all| == startPadding + daysInMonth
            && (forall i :: 0 <= i < |all| ==> all[i] == monthStart - startPadding + i)
            && (forall i :: 0 <= i < startPadding ==> all[i] < monthStart)
            && (startPadding > 0 ==> all[startPadding - 1] == monthStart - 1)
  {
    var all := AllDays(monthStart, startPadding, daysInMonth);
    forall i | 0 <= i < |all| ensures all[i] == monthStart - startPadding + i {
      if i < startPadding {
        assert all[i] == PaddingDays(monthStart, startPadding)[i];
      } else {
        assert all[i] == MonthDays(monthStart, daysInMonth)[i - startPadding];
      }
    }
  }

  /** The rows of the grid: successive slices of seven, the last one possibly shorter. */
  function Weeks(days: seq<int>): seq<seq<int>>
    decreases |days|
  {
    if |days| <= DaysPerWeek then (if days == [] then [] else [days])
    else [days[..DaysPerWeek]] + Weeks(days[DaysPerWeek..])
  }

  function Flatten(rows: seq<seq<int>>): seq<int>
  {
    if rows == [] then [] else rows[0] + Flatten(rows[1..])
  }

  /** Reading the rows in order gives back the days. */
  lemma {:induction false} WeeksFlatten(days: seq<int>)
    ensures Flatten(Weeks(days)) == days
    decreases |days|
  {
    if |days| > DaysPerWeek {
      WeeksFlatten(days[DaysPerWeek..]);
      var w := Weeks(days);
      assert w[0] == days[..DaysPerWeek] && w[1..] == Weeks(days[DaysPerWeek..]);
      assert days == days[..DaysPerWeek] + days[DaysPerWeek..];
    } else if days != [] {
      assert Weeks(days)[1..] == [];
    }
  }

  /** Every row has seven days except the last, which has one to seven; and there
      are as many rows as sevens needed to hold the days. */
  lemma {:induction false} WeeksShape(days: seq<int>)
    ensures |Weeks(days)| == (|days| + DaysPerWeek - 1) / DaysPerWeek
    ensures forall k :: 0 <= k < |Weeks(days)| - 1 ==> |Weeks(days)[k]| == DaysPerWeek
    ensures |Weeks(days)| > 0 ==> 1 <= |Weeks(days)[|Weeks(days)| - 1]| <= DaysPerWeek
    decreases |days|
  {
    if |days| > DaysPerWeek {
      WeeksShape(days[DaysPerWeek..]);
      var w := Weeks(days);
      assert w[1..] == Weeks(days[DaysPerWeek..]);
      forall k | 0 <= k < |w| - 1 ensures |w[k]| == DaysPerWeek {
        if k > 0 { assert w[k] == w[1..][k - 1]; }
      }
    }
  }

  /** The `for (i = 0; i < allDays.length; i += 7) weeks.push(allDays.slice(i, i + 7))` loop. */
  method ChunkWeeks(allDays: seq<int>) returns (weeks: seq<seq<int>>)
    ensures weeks == Weeks(allDays)
  {
    weeks := [];
    var i := 0;
    while i < |allDays|
      invariant 0 <= i <= |allDays|
      invariant weeks + Weeks(allDays[i..]) == Weeks(allDays)
      decreases |allDays| - i
    {
      var rest := allDays[i..];
      if i + DaysPerWeek <= |allDays| {
        var row := allDays[i..i + DaysPerWeek];
        assert rest[..DaysPerWeek] == row;
        assert rest[DaysPerWeek..] == allDays[i + DaysPerWeek..];
        if |rest| == DaysPerWeek {
          assert rest == row && allDays[i + DaysPerWeek..] == [];
        }
        assert Weeks(rest) == [row] + Weeks(allDays[i + DaysPerWeek..]);
        weeks := weeks + [row];
        i := i + DaysPerWeek;
      } else {
        var row := allDays[i..];
        assert Weeks(rest) == [row];
        weeks := weeks + [row];
        i := |allDays|;
        assert allDays[i..] == [];
      }
    }
    assert allDays[i..] == [];
  }

  // ----- Tasks under a day -----

  predicate DueOn(t: Task, day: int)
  {
    t.dueDate.Some? && DayOf(t.dueDate.value) == day
  }

  function DueOnTest(day: int): Task -> bool
  {
    (t: Task) => DueOn(t, day)
  }

  /** `getTasksForDate(date)`. */
  function TasksForDay(tasks: seq<Task>, day: int): seq<Task>
  {
    Where(tasks, DueOnTest(day))
  }

  /** A day lists exactly the tasks due on it, in list order; an undated task is
      listed under no day, and a task is listed under one day at most. */
  lemma TasksForDaySpec(tasks: seq<Task>, day: int)
    ensures forall t :: t in TasksForDay(tasks, day) <==> t in tasks && t.dueDate.Some? && DayOf(t.dueDate.value) == day
    ensures IsSubsequence(TasksForDay(tasks, day), tasks)
    ensures forall t: Task :: t.dueDate.None? ==> t !in TasksForDay(tasks, day)
  {
    WhereMembership(tasks, DueOnTest(day));
    WhereIsSubsequence(tasks, DueOnTest(day));
  }

  lemma TasksForDayDisjoint(tasks: seq<Task>, day1: int, day2: int)
    requires day1 != day2
    ensures forall t: Task :: !(t in TasksForDay(tasks, day1) && t in TasksForDay(tasks, day2))
  {
    WhereMembership(tasks, DueOnTest(day1));
    WhereMembership(tasks, DueOnTest(day2));
  }

  /** `dayTasks.slice(0, 3)`. */
  function ShownTasks(dayTasks: seq<Task>): seq<Task>
  {
    if |dayTasks| <= MaxShown then dayTasks else dayTasks[..MaxShown]
  }

  /** The `+k more` label: the number of tasks not shown, when there are any. */
  function MoreCount(dayTasks: seq<Task>): Option<nat>
  {
    if |dayTasks| > MaxShown then Some(|dayTasks| - MaxShown) else None
  }

  /** At most three tasks are shown, the first ones; the label appears exactly when
      more exist and counts the rest, so shown and counted add up to the day's tasks. */
  lemma CapAccountsForAll(dayTasks: seq<Task>)
    ensures |ShownTasks(dayTasks)| <= MaxShown
    ensures ShownTasks(dayTasks) == dayTasks[..|ShownTasks(dayTasks)|]
    ensures MoreCount(dayTasks).Some? <==> |dayTasks| > MaxShown
    ensures |ShownTasks(dayTasks)| + (if MoreCount(dayTasks).Some? then MoreCount(dayTasks).value else 0) == |dayTasks|
  {
  }

  // ----- Stats -----

  /** `tasks.filter(t => t.status_c === status).length`, as each stat card shows it. */
  function StatCount(tasks: seq<Task>, status: string): nat
  {
    |Where(tasks, StatusIs(status))|
  }

  /** Each stat counts the tasks with exactly that status; the three never exceed
      the number of tasks, and they add up to it exactly when every task has one
      of the three statuses. */
  lemma StatusTotals(tasks: seq<Task>)
    ensures forall s :: StatCount(tasks, s) == CountStatus(tasks, s)
    ensures StatCount(tasks, ToDo) + StatCount(tasks, InProgress) + StatCount(tasks, Done) <= |tasks|
    ensures StatCount(tasks, ToDo) + StatCount(tasks, InProgress) + StatCount(tasks, Done) == |tasks|
            <==> forall i :: 0 <= i < |tasks| ==> tasks[i].status in {ToDo, InProgress, Done}
  {
    forall s ensures StatCount(tasks, s) == CountStatus(tasks, s) {
      WhereStatusCount(tasks, s, StatusIs(s));
    }
    CountTotals(tasks);
  }

  lemma {:induction false} CountTotals(tasks: seq<Task>)
    ensures CountStatus(tasks, ToDo) + CountStatus(tasks, InProgress) + CountStatus(tasks, Done) <= |tasks|
    ensures CountStatus(tasks, ToDo) + CountStatus(tasks, InProgress) + CountStatus(tasks, Done) == |tasks|
            <==> forall i :: 0 <= i < |tasks| ==> tasks[i].status in {ToDo, InProgress, Done}
  {
    if tasks != [] {
      CountTotals(tasks[1..]);
      assert forall i :: 1 <= i < |tasks| ==> tasks[i] == tasks[1..][i - 1];
    }
  }

  // ----- Month navigation -----

  /** The month a direction leads to: `'prev'` goes back one, anything else forward one. */
  function Shift(month: int, direction: string): int
  {
    if direction == "prev" then month - 1 else month + 1
  }

  lemma ShiftRoundTrip(month: int, direction: string)
    ensures Shift(Shift(month, "prev"), "next") == month
    ensures Shift(Shift(month, direction), if direction == "prev" then "next" else "prev") == month
  {
  }

  /** The shown month, as a count of months (year * 12 + month). */
  class CalendarState {
    var month: int

    constructor (current: int)
      ensures month == current
    {
      month := current;
    }

    /** `navigateMonth(direction)`. */
    method NavigateMonth(direction: string)
      modifies this`month
      ensures month == Shift(old(month), direction)
      ensures direction == "prev" ==> month == old(month) - 1
      ensures direction != "prev" ==> month == old(month) + 1
    {
      if direction == "prev" {
        month := month - 1;
      } else {
        month := month + 1;
      }
    }
  }
}
