/** One cycle of the reminder poller (`checkDueReminders`) and the permission
    request of the notification hook, against abstract reminder and task stores. */
module ReminderPoll {
  import opened Wrappers
  import opened Records
  import opened NotificationSlice
  import opened NotificationDispatch

  /** The due query: still scheduled and its time has come. */
  predicate IsDue(r: Reminder, now: int)
  {
    r.status == Scheduled && r.time <= now
  }

  /** `getDueReminders()`: the due reminders, in the store's order. */
  function DueReminders(table: seq<Reminder>, now: int): seq<Reminder>
  {
    if table == [] then []
    else (if IsDue(table[0], now) then [table[0]] else []) + DueReminders(table[1..], now)
  }

  /** The due query returns exactly the due reminders of the table. */
  lemma {:induction false} DueRemindersAreDue(table: seq<Reminder>, now: int)
    ensures |DueReminders(table, now)| <= |table|
    ensures forall r :: r in DueReminders(table, now) <==> r in table && IsDue(r, now)
  {
    if table != [] {
      DueRemindersAreDue(table[1..], now);
      assert table == [table[0]] + table[1..];
    }
  }

  /** What the cycle depends on besides the reminder table: how the task store
      answers `getById` for each id (a missing id throws), which reminder updates
      throw, the dispatcher's state, and the locale's date rendering. */
  datatype Env = Env(
    tasks: map<int, Outcome<Option<Task>>>,
    failingUpdates: set<int>,
    supported: bool,
    permission: Permission,
    dateText: Option<int> -> string)

  /** How a reminder was shown. */
  datatype Display = Native(notification: Option<NativeReminder>) | InApp(banner: Banner)

  /** The observable effects of a cycle, in the order they happen. */
  datatype Effect =
    | Displayed(reminderId: int, display: Display)
    | Logged(reminderId: int, payload: Payload)
    | MarkedSent(reminderId: int)

  function EffectReminder(e: Effect): int
  {
    match e
    case Displayed(id, _) => id
    case Logged(id, _) => id
    case MarkedSent(id) => id
  }

  /** `taskService.getById(reminder.task_c_id_c?.Id || reminder.task_c_id_c)`. */
  function TaskLookup(env: Env, r: Reminder): Outcome<Option<Task>>
  {
    var id := LookupId(r.task);
    if id.Some? && id.value in env.tasks then env.tasks[id.value] else Err
  }

  /** The task was found (a truthy result). */
  predicate Found(env: Env, r: Reminder)
  {
    TaskLookup(env, r).Ok? && TaskLookup(env, r).value.Some?
  }

  /** Handling `r` throws: the lookup throws, or the task is found and the
      status update throws. */
  predicate Throws(env: Env, r: Reminder)
  {
    TaskLookup(env, r).Err? || (Found(env, r) && r.Id in env.failingUpdates)
  }

  /** The notification shown for a found task. */
  function DisplayFor(env: Env, t: Task, r: Reminder): Display
  {
    if env.permission == Granted then Native(TaskReminder(env.supported, env.permission, t, r))
    else InApp(ShowInAppNotification(t.title, "Reminder: Due " + env.dateText(t.dueDate), "info", DefaultBannerDuration))
  }

  /** The record sent to the notification log for a found task. */
  function ReminderPayload(env: Env, t: Task, r: Reminder): (p: Payload)
    ensures p.id == None && p.read == None && p.timestamp == None
    ensures p.kind == Some("reminder") && p.taskId == Some(t.Id) && p.reminderId == Some(r.Id)
  {
    Payload(None, None, None, Some("reminder"), t.title, Some("Due: " + env.dateText(t.dueDate)), Some(t.Id), Some(r.Id))
  }

  /** The effects of handling one reminder: nothing when the lookup throws or
      finds nothing; otherwise one display, then one log record, then the
      update to Sent unless that update throws. */
  function Block(env: Env, r: Reminder): seq<Effect>
  {
    if !Found(env, r) then []
    else
      var t := TaskLookup(env, r).value.value;
      [Displayed(r.Id, DisplayFor(env, t, r)), Logged(r.Id, ReminderPayload(env, t, r))]
      + (if r.Id in env.failingUpdates then [] else [MarkedSent(r.Id)])
  }

  /** A block has at most three effects, all about its own reminder, and is empty
      exactly when the task is not found; the display comes before the log record. */
  lemma BlockShape(env: Env, r: Reminder)
    ensures |Block(env, r)| <= 3
    ensures forall e :: e in Block(env, r) ==> EffectReminder(e) == r.Id
    ensures Block(env, r) == [] <==> !Found(env, r)
    ensures Found(env, r) ==> Block(env, r)[0].Displayed? && Block(env, r)[1].Logged?
  {
  }

  /** The blocks of several reminders, one after the other. */
  function Blocks(env: Env, rs: seq<Reminder>): seq<Effect>
  {
    if rs == [] then [] else Blocks(env, rs[..|rs| - 1]) + Block(env, rs[|rs| - 1])
  }

  /** The index of the first reminder whose handling throws, or `|due|`. */
  function FirstThrow(env: Env, due: seq<Reminder>): (p: nat)
    ensures p <= |due|
    ensures p < |due| ==> Throws(env, due[p])
    ensures forall j :: 0 <= j < p ==> !Throws(env, due[j])
  {
    if due == [] then 0
    else if Throws(env, due[0]) then 0
    else 1 + FirstThrow(env, due[1..])
  }

  /** The reminders the cycle gets to: all of them, or those up to and including
      the first one that throws. */
  function Attempted(env: Env, due: seq<Reminder>): seq<Reminder>
  {
    var p := FirstThrow(env, due);
    if p < |due| then due[..p + 1] else due
  }

  /** The ids of the reminders marked Sent. */
  function SentIds(effects: seq<Effect>): set<int>
  {
    set e | e in effects && e.MarkedSent? :: e.reminderId
  }

  /** The payloads sent to the log, in order. */
  function LoggedPayloads(effects: seq<Effect>): seq<Payload>
  {
    if effects == [] then []
    else LoggedPayloads(effects[..|effects| - 1])
         + (if effects[|effects| - 1].Logged? then [effects[|effects| - 1].payload] else [])
  }

  /** The records the log holds after the payloads were added one by one, the
      k-th at clock reading `clock(k)`: the last one first. */
  function NewestFirst(ps: seq<Payload>, clock: nat -> int): seq<Notification>
  {
    if ps == [] then []
    else [FromPayload(ps[|ps| - 1], clock(|ps| - 1))] + NewestFirst(ps[..|ps| - 1], clock)
  }

  /** The reminder table after the status updates with ids in `sent`. */
  function MarkSent(table: seq<Reminder>, sent: set<int>): seq<Reminder>
  {
    seq(|table|, i requires 0 <= i < |table| => if table[i].Id in sent then table[i].(status := Sent) else table[i])
  }

  lemma BlocksAppend(env: Env, rs: seq<Reminder>, r: Reminder)
    ensures Blocks(env, rs + [r]) == Blocks(env, rs) + Block(env, r)
  {
    assert (rs + [r])[..|rs|] == rs;
  }

  lemma LoggedPayloadsAppend(a: seq<Effect>, b: seq<Effect>)
    ensures LoggedPayloads(a + b) == LoggedPayloads(a) + LoggedPayloads(b)
    decreases |b|
  {
    if b == [] {
      assert a + b == a;
    } else {
      assert (a + b)[..|a + b| - 1] == a + b[..|b| - 1];
      LoggedPayloadsAppend(a, b[..|b| - 1]);
    }
  }

  lemma SentIdsAppend(a: seq<Effect>, b: seq<Effect>)
    ensures SentIds(a + b) == SentIds(a) + SentIds(b)
  {
    forall id | id in SentIds(a + b) ensures id in SentIds(a) + SentIds(b) {
      var e :| e in a + b && e.MarkedSent? && e.reminderId == id;
      if e in a { assert id in SentIds(a); } else { assert id in SentIds(b); }
    }
    forall id | id in SentIds(a) + SentIds(b) ensures id in SentIds(a + b) {
      if id in SentIds(a) {
        var e :| e in a && e.MarkedSent? && e.reminderId == id;
        assert e in a + b;
      } else {
        var e :| e in b && e.MarkedSent? && e.reminderId == id;
        assert e in a + b;
      }
    }
  }

  /** The log holds the new records newest first, each stamped with its own clock reading. */
  lemma {:induction false} NewestFirstAt(ps: seq<Payload>, clock: nat -> int)
    ensures |NewestFirst(ps, clock)| == |ps|
    ensures forall i :: 0 <= i < |ps| ==> NewestFirst(ps, clock)[i] == FromPayload(ps[|ps| - 1 - i], clock(|ps| - 1 - i))
  {
    if ps != [] {
      NewestFirstAt(ps[..|ps| - 1], clock);
    }
  }

  lemma MarkSentUnion(table: seq<Reminder>, a: set<int>, b: set<int>)
    ensures MarkSent(MarkSent(table, a), b) == MarkSent(table, a + b)
  {
  }

  lemma NewestFirstAppend(ps: seq<Payload>, p: Payload, clock: nat -> int)
    ensures NewestFirst(ps + [p], clock) == [FromPayload(p, clock(|ps|))] + NewestFirst(ps, clock)
  {
    assert (ps + [p])[..|ps|] == ps;
  }

  /** What one reminder's block adds to the log records and to the sent ids. */
  lemma BlockContribution(env: Env, prior: seq<Effect>, r: Reminder)
    ensures !Found(env, r) ==> prior + Block(env, r) == prior
    ensures Found(env, r) ==>
              LoggedPayloads(prior + Block(env, r)) == LoggedPayloads(prior) + [ReminderPayload(env, TaskLookup(env, r).value.value, r)]
    ensures SentIds(prior + Block(env, r)) == SentIds(prior) + SentIds(Block(env, r))
    ensures SentIds(Block(env, r)) == if Found(env, r) && r.Id !in env.failingUpdates then {r.Id} else {}
  {
    var b := Block(env, r);
    SentIdsAppend(prior, b);
    if Found(env, r) {
      var t := TaskLookup(env, r).value.value;
      var p := ReminderPayload(env, t, r);
      var shown := [Displayed(r.Id, DisplayFor(env, t, r)), Logged(r.Id, p)];
      assert LoggedPayloads(shown) == [p] by {
        assert shown[..1] == [shown[0]];
        assert LoggedPayloads(shown[..1]) == [];
      }
      if r.Id in env.failingUpdates {
        assert b == shown;
      } else {
        assert b == shown + [MarkedSent(r.Id)];
        LoggedPayloadsAppend(shown, [MarkedSent(r.Id)]);
        assert b[..|b| - 1] == shown;
      }
      assert LoggedPayloads(b) == [p];
      LoggedPayloadsAppend(prior, b);
      assert MarkedSent(r.Id) in b <==> r.Id !in env.failingUpdates;
    } else {
      assert b == [];
    }
  }

  /** How the reference effects grow by one due reminder, and where the cycle
      stops: at the first reminder whose handling throws. */
  lemma CycleStep(env: Env, due: seq<Reminder>, i: nat)
    requires i < |due| && i <= FirstThrow(env, due)
    ensures Blocks(env, due[..i + 1]) == Blocks(env, due[..i]) + Block(env, due[i])
    ensures Throws(env, due[i]) ==> FirstThrow(env, due) == i && Attempted(env, due) == due[..i + 1]
    ensures !Throws(env, due[i]) ==> i + 1 <= FirstThrow(env, due)
  {
    assert due[..i + 1] == due[..i] + [due[i]];
    BlocksAppend(env, due[..i], due[i]);
  }

  /** The loop invariants of `CheckDueReminders` carried over one due reminder. */
  lemma CycleAdvance(env: Env, due: seq<Reminder>, i: nat, table: seq<Reminder>, effects: seq<Effect>)
    requires i < |due| && i <= FirstThrow(env, due) && effects == Blocks(env, due[..i])
    ensures var next := effects + Block(env, due[i]);
            && MarkSent(MarkSent(table, SentIds(effects)), SentIds(Block(env, due[i]))) == MarkSent(table, SentIds(next))
            && (Throws(env, due[i]) ==> FirstThrow(env, due) < |due| && next == Blocks(env, Attempted(env, due)))
            && (!Throws(env, due[i]) ==> i + 1 <= FirstThrow(env, due) && next == Blocks(env, due[..i + 1]))
  {
    CycleStep(env, due, i);
    BlockContribution(env, effects, due[i]);
    MarkSentUnion(table, SentIds(effects), SentIds(Block(env, due[i])));
  }

  /** The ids a run of reminders should mark Sent: those whose task is found and
      whose status update does not throw. */
  function ExpectedSent(env: Env, rs: seq<Reminder>): set<int>
  {
    set r | r in rs && Found(env, r) && r.Id !in env.failingUpdates :: r.Id
  }

  /** The reference effects mark Sent exactly the expected ids. */
  lemma {:induction false} SentIdsOfBlocks(env: Env, rs: seq<Reminder>)
    ensures SentIds(Blocks(env, rs)) == ExpectedSent(env, rs)
    decreases |rs|
  {
    if rs == [] {
      assert SentIds([]) == {};
    } else {
      var init, last := rs[..|rs| - 1], rs[|rs| - 1];
      SentIdsOfBlocks(env, init);
      BlockContribution(env, Blocks(env, init), last);
      assert rs == init + [last];
      forall id ensures id in ExpectedSent(env, rs) <==> id in ExpectedSent(env, init) + SentIds(Block(env, last)) {
        if id in ExpectedSent(env, rs) {
          var r :| r in rs && Found(env, r) && r.Id !in env.failingUpdates && r.Id == id;
          if r != last {
            assert r in init;
          }
        }
      }
    }
  }

  /** What a cycle does to the reminders it reaches: each one before the first
      throw whose task is found is marked Sent; a found reminder whose update
      threw is not; and nothing is marked that is not the Id of a reached,
      found reminder whose update succeeded. */
  lemma CycleMarksSent(env: Env, due: seq<Reminder>)
    ensures var sent := SentIds(Blocks(env, Attempted(env, due)));
            && sent == ExpectedSent(env, Attempted(env, due))
            && (forall j :: 0 <= j < FirstThrow(env, due) && Found(env, due[j]) ==> due[j].Id in sent)
            && (FirstThrow(env, due) < |due| && Found(env, due[FirstThrow(env, due)]) ==> due[FirstThrow(env, due)].Id !in sent)
            && (forall id :: id in sent ==>
                  exists r :: r in Attempted(env, due) && r.Id == id && Found(env, r) && id !in env.failingUpdates)
  {
    var att := Attempted(env, due);
    SentIdsOfBlocks(env, att);
    forall j | 0 <= j < FirstThrow(env, due) && Found(env, due[j])
      ensures due[j].Id in ExpectedSent(env, att)
    {
      assert due[j] == att[j];
    }
  }

  /** The body of the loop: handles one due reminder. `shown` is its block of
      effects and `threw` whether its handling threw. `prior` and `base` are the
      effects of the earlier reminders and the log before the cycle; `k` is the
      number of records logged so far. */
  method HandleReminder(svc: NotificationService, log: NotificationState, env: Env, reminder: Reminder,
                        table: seq<Reminder>, clock: nat -> int, k: nat, ghost prior: seq<Effect>, ghost base: seq<Notification>)
    returns (newTable: seq<Reminder>, shown: seq<Effect>, threw: bool)
    requires env.supported == svc.isSupported && env.permission == svc.permission
    requires k == |LoggedPayloads(prior)|
    requires log.notifications == NewestFirst(LoggedPayloads(prior), clock) + base
    modifies log`notifications, log`unreadCount
    ensures shown == Block(env, reminder) && threw == Throws(env, reminder)
    ensures newTable == MarkSent(table, SentIds(shown))
    ensures log.notifications == NewestFirst(LoggedPayloads(prior + shown), clock) + base
    ensures log.unreadCount == old(log.unreadCount) + |LoggedPayloads(prior + shown)| - k
    ensures old(log.Consistent()) ==> log.Consistent()
  {
    var task := TaskLookup(env, reminder);
    if task.Err? || task.value.None? {
      // getById threw, or found nothing and the reminder is skipped.
      BlockContribution(env, prior, reminder);
      assert SentIds([]) == {};
      return table, [], task.Err?;
    }
    newTable, shown, threw := NotifyFound(svc, log, env, reminder, task.value.value, table, clock, k, prior, base);
    BlockContribution(env, prior, reminder);
  }

  /** The rest of the loop body once the task is found: show the reminder, log it,
      and mark it Sent. */
  method NotifyFound(svc: NotificationService, log: NotificationState, env: Env, reminder: Reminder, t: Task,
                     table: seq<Reminder>, clock: nat -> int, k: nat, ghost prior: seq<Effect>, ghost base: seq<Notification>)
    returns (newTable: seq<Reminder>, shown: seq<Effect>, threw: bool)
    requires Found(env, reminder) && t == TaskLookup(env, reminder).value.value
    requires env.supported == svc.isSupported && env.permission == svc.permission
    requires k == |LoggedPayloads(prior)|
    requires log.notifications == NewestFirst(LoggedPayloads(prior), clock) + base
    modifies log`notifications, log`unreadCount
    ensures shown == Block(env, reminder) && threw == Throws(env, reminder)
    ensures newTable == MarkSent(table, SentIds(shown))
    ensures log.notifications == NewestFirst(LoggedPayloads(prior) + [ReminderPayload(env, t, reminder)], clock) + base
    ensures log.unreadCount == old(log.unreadCount) + 1
    ensures old(log.Consistent()) ==> log.Consistent()
  {
    var display := if svc.IsPermissionGranted() then Native(svc.ShowTaskReminder(t, reminder))
                   else InApp(ShowInAppNotification(t.title, "Reminder: Due " + env.dateText(t.dueDate), "info", DefaultBannerDuration));
    var payload := ReminderPayload(env, t, reminder);
    NewestFirstAppend(LoggedPayloads(prior), payload, clock);
    log.AddNotification(payload, clock(k));
    assert log.notifications == NewestFirst(LoggedPayloads(prior) + [payload], clock) + base;
    shown := [Displayed(reminder.Id, display), Logged(reminder.Id, payload)];
    if reminder.Id in env.failingUpdates {
      // The update threw: the record stays Scheduled.
      newTable, threw := table, true;
    } else {
      // reminderService.update(reminder.Id, { status: 'Sent' })
      newTable := MarkSent(table, {reminder.Id});
      shown := shown + [MarkedSent(reminder.Id)];
      threw := false;
    }
    assert shown == Block(env, reminder);
  }

  /** One cycle of `checkDueReminders`. `dueQueryThrows` says whether the due query
      itself throws; `clock(k)` is the `Date.now()` reading of the k-th log record.
      Returns the new reminder table, the effects in order, and whether the cycle
      ended on a thrown error (which the single `catch` only logs). */
  method CheckDueReminders(svc: NotificationService, log: NotificationState, table: seq<Reminder>, now: int,
                           dueQueryThrows: bool, tasks: map<int, Outcome<Option<Task>>>, failingUpdates: set<int>,
                           dateText: Option<int> -> string, clock: nat -> int)
    returns (newTable: seq<Reminder>, effects: seq<Effect>, aborted: bool)
    modifies log`notifications, log`unreadCount
    ensures var env := Env(tasks, failingUpdates, svc.isSupported, svc.permission, dateText);
            var due := DueReminders(table, now);
            && (dueQueryThrows ==> effects == [] && aborted)
            && (!dueQueryThrows ==>
                  && effects == Blocks(env, Attempted(env, due))
                  && aborted == (FirstThrow(env, due) < |due|)
                  && newTable == MarkSent(table, ExpectedSent(env, Attempted(env, due))))
    ensures newTable == MarkSent(table, SentIds(effects))
    ensures log.notifications == NewestFirst(LoggedPayloads(effects), clock) + old(log.notifications)
    ensures log.unreadCount == old(log.unreadCount) + |LoggedPayloads(effects)|
    ensures old(log.Consistent()) ==> log.Consistent()
  {
    if dueQueryThrows {
      assert SentIds([]) == {};
      return table, [], true;
    }
    var env := Env(tasks, failingUpdates, svc.isSupported, svc.permission, dateText);
    var due := DueReminders(table, now);
    newTable, effects, aborted := HandleDue(svc, log, env, due, table, clock);
    SentIdsOfBlocks(env, Attempted(env, due));
  }

  /** The `for (const reminder of dueReminders)` loop: handles the due reminders in
      order and stops at the first one whose handling throws. */
  method HandleDue(svc: NotificationService, log: NotificationState, env: Env, due: seq<Reminder>,
                   table: seq<Reminder>, clock: nat -> int)
    returns (newTable: seq<Reminder>, effects: seq<Effect>, aborted: bool)
    requires env.supported == svc.isSupported && env.permission == svc.permission
    modifies log`notifications, log`unreadCount
    ensures effects == Blocks(env, Attempted(env, due))
    ensures aborted == (FirstThrow(env, due) < |due|)
    ensures newTable == MarkSent(table, SentIds(effects))
    ensures log.notifications == NewestFirst(LoggedPayloads(effects), clock) + old(log.notifications)
    ensures log.unreadCount == old(log.unreadCount) + |LoggedPayloads(effects)|
    ensures old(log.Consistent()) ==> log.Consistent()
  {
    newTable, effects, aborted := table, [], false;
    assert SentIds([]) == {};
    var i := 0;
    while i < |due| && !aborted
      invariant 0 <= i <= |due|
      invariant !aborted ==> i <= FirstThrow(env, due) && effects == Blocks(env, due[..i])
      invariant aborted ==> FirstThrow(env, due) < |due| && effects == Blocks(env, Attempted(env, due))
      invariant newTable == MarkSent(table, SentIds(effects))
      invariant log.notifications == NewestFirst(LoggedPayloads(effects), clock) + old(log.notifications)
      invariant log.unreadCount == old(log.unreadCount) + |LoggedPayloads(effects)|
      invariant old(log.Consistent()) ==> log.Consistent()
      decreases |due| - i, if aborted then 0 else 1
    {
      var reminder := due[i];
      CycleAdvance(env, due, i, table, effects);
      var shown, threw;
      newTable, shown, threw := HandleReminder(svc, log, env, reminder, newTable, clock, |LoggedPayloads(effects)|,
                                                  effects, old(log.notifications));
      effects := effects + shown;
      if threw {
        aborted := true;
      } else {
        i := i + 1;
      }
    }
    if !aborted {
      assert due[..i] == due;
    }
  }

  /** `requestNotificationPermission()`: stores and returns whether notifications
      are now permitted; every thrown error yields `false`. */
  method RequestNotificationPermission(svc: NotificationService, log: NotificationState, answer: Permission)
    returns (granted: bool)
    modifies svc`permission, log`permissionGranted
    ensures granted <==> svc.isSupported && (old(svc.permission) == Granted || (old(svc.permission) == Default && answer == Granted))
    ensures log.permissionGranted == granted
    ensures granted ==> svc.permission == Granted
    ensures svc.permission == if svc.isSupported && old(svc.permission) == Default then answer else old(svc.permission)
  {
    var r, _ := svc.RequestPermission(answer);
    if r.Resolved? {
      granted := r.granted;
    } else {
      granted := false;
    }
    log.SetPermissionGranted(granted);
  }
}
