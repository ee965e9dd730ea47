/** The Daily Work Manager rules (app.js): dated tasks with a priority,
    the list filters and their priority ordering, the completion flip and
    the delay arithmetic behind the daily summary and the "ten minutes
    before" task reminders.

    Dates are day numbers and instants are milliseconds (module Clock);
    an ISO "YYYY-MM-DD" date compares as its day number does. */
module WorkManager {
  import opened Basics
  import opened Ordering
  import opened Clock

  /** The four options of the priority select. */
  datatype Priority = Low | Medium | High | Critical

  /** `priorityOrder`: critical 4, high 3, medium 2, low 1. */
  function Rank(p: Priority): (r: int)
    ensures 1 <= r <= 4
  {
    match p
    case Low => 1
    case Medium => 2
    case High => 3
    case Critical => 4
  }

  /** Distinct priorities have distinct ranks, ordered low < medium < high < critical. */
  lemma RankOrder(p: Priority, q: Priority)
    ensures Rank(p) == Rank(q) <==> p == q
    ensures Rank(Low) < Rank(Medium) < Rank(High) < Rank(Critical)
  {
  }

  /** `task.priority.toUpperCase()` */
  function PriorityLabel(p: Priority): string
  {
    match p
    case Low => "LOW"
    case Medium => "MEDIUM"
    case High => "HIGH"
    case Critical => "CRITICAL"
  }

  /** A task record: `time` is absent when the time field was left empty,
      `completedAt` is null unless the task is completed. */
  datatype WorkTask = WorkTask(
    id: string,
    title: string,
    description: string,
    priority: Priority,
    dueDate: int,
    time: Option<MinuteOfDay>,
    completed: bool,
    createdAt: int,
    completedAt: Option<int>)

  datatype Settings = Settings(
    notificationsEnabled: bool,
    dailyReminderTime: string,
    taskReminderEnabled: bool,
    dailySummaryEnabled: bool)

  /** The settings used when none are stored. */
  function DefaultSettings(): (s: Settings)
    ensures !s.notificationsEnabled && IsClockText(s.dailyReminderTime) && ClockMinutes(s.dailyReminderTime) == 540
    ensures s.taskReminderEnabled && s.dailySummaryEnabled
  {
    Settings(false, "09:00", true, true)
  }

  /** A task is consistent when `completedAt` is set exactly when it is completed. */
  predicate Consistent(t: WorkTask)
  {
    t.completedAt.Some? <==> t.completed
  }

  // ---------------------------------------------------------------------
  // Filters (getFilteredTasks)

  /** The `data-filter` of the filter buttons; every other value, 'all'
      included, shows every task. */
  datatype TaskFilter = Today | Upcoming | CompletedOnly | AllTasks(name: string)

  /** The three words the `switch` of `getFilteredTasks` recognises. */
  predicate IsNamedFilter(f: TaskFilter)
  {
    !f.AllTasks? || f.name in {"today", "upcoming", "completed"}
  }

  /** The filters a `currentFilter` string can denote: a recognised word
      always takes its own case, so `AllTasks` only ever holds other text. */
  type StoredFilter = f: TaskFilter | f.AllTasks? ==> !IsNamedFilter(f) witness AllTasks("all")

  /** The `currentFilter` string of a filter. */
  function FilterText(f: TaskFilter): string
  {
    match f
    case Today => "today"
    case Upcoming => "upcoming"
    case CompletedOnly => "completed"
    case AllTasks(name) => name
  }

  /** `switch (this.currentFilter)`: which case a filter string takes. */
  function ParseFilter(text: string): (f: StoredFilter)
    ensures FilterText(f) == text
  {
    if text == "today" then Today
    else if text == "upcoming" then Upcoming
    else if text == "completed" then CompletedOnly
    else AllTasks(text)
  }

  /** Writing a stored filter and reading it back gives it again. */
  lemma FilterRoundTrip(f: StoredFilter)
    ensures ParseFilter(FilterText(f)) == f
  {
  }

  predicate InFilter(filter: StoredFilter, today: int, t: WorkTask)
  {
    match filter
    case Today => t.dueDate == today
    case Upcoming => t.dueDate > today && !t.completed
    case CompletedOnly => t.completed
    case AllTasks(_) => true
  }

  /** `getFilteredTasks`; for the default case this is `this.tasks` itself. */
  function FilteredTasks(tasks: seq<WorkTask>, filter: StoredFilter, today: int): seq<WorkTask>
  {
    if filter.AllTasks? then tasks
    else Filter(tasks, t => InFilter(filter, today, t))
  }

  /** Each filter keeps exactly the tasks it selects, in list order. */
  lemma FilteredTasksMembers(tasks: seq<WorkTask>, filter: StoredFilter, today: int)
    ensures forall t :: t in FilteredTasks(tasks, filter, today) <==> t in tasks && InFilter(filter, today, t)
    ensures IsSubsequence(FilteredTasks(tasks, filter, today), tasks)
    ensures filter.AllTasks? ==> FilteredTasks(tasks, filter, today) == tasks
  {
    if filter.AllTasks? {
      SelfSubsequence(tasks);
    } else {
      FilterMembers(tasks, t => InFilter(filter, today, t));
      FilterIsSubsequence(tasks, t => InFilter(filter, today, t));
    }
  }

  /** 'today' and 'upcoming' never show the same task. */
  lemma TodayAndUpcomingDisjoint(tasks: seq<WorkTask>, today: int, t: WorkTask)
    requires t in FilteredTasks(tasks, Today, today)
    ensures t !in FilteredTasks(tasks, Upcoming, today)
  {
    FilteredTasksMembers(tasks, Today, today);
    FilteredTasksMembers(tasks, Upcoming, today);
  }

  // ---------------------------------------------------------------------
  // Orderings (the renderTasks and renderTodayTasks comparators)

  /** `renderTasks`: higher priority first, then earlier due date. */
  function ListOrder(): (WorkTask, WorkTask) -> bool
  {
    (a: WorkTask, b: WorkTask) =>
      if Rank(a.priority) != Rank(b.priority) then Rank(a.priority) > Rank(b.priority)
      else a.dueDate <= b.dueDate
  }

  /** `renderTodayTasks`: higher priority first; ties keep their order. */
  function TodayOrder(): (WorkTask, WorkTask) -> bool
  {
    (a: WorkTask, b: WorkTask) => Rank(a.priority) >= Rank(b.priority)
  }

  lemma OrdersAreTotalPreorders()
    ensures TotalPreorder(ListOrder())
    ensures TotalPreorder(TodayOrder())
  {
  }

  /** The tasks `renderTasks` shows, in its order. */
  function RenderedTasks(tasks: seq<WorkTask>, filter: StoredFilter, today: int): seq<WorkTask>
  {
    SortBy(FilteredTasks(tasks, filter, today), ListOrder())
  }

  /** The list view is a reordering of the filtered tasks, by priority rank
      descending and, within a rank, by due date ascending. */
  lemma RenderedTasksOrder(tasks: seq<WorkTask>, filter: StoredFilter, today: int)
    ensures multiset(RenderedTasks(tasks, filter, today)) == multiset(FilteredTasks(tasks, filter, today))
    ensures var r := RenderedTasks(tasks, filter, today);
      forall i, j :: 0 <= i < j < |r| ==>
        Rank(r[i].priority) >= Rank(r[j].priority)
        && (r[i].priority == r[j].priority ==> r[i].dueDate <= r[j].dueDate)
  {
    OrdersAreTotalPreorders();
    SortBySorted(FilteredTasks(tasks, filter, today), ListOrder());
  }

  /** What `renderTasks` leaves in `this.tasks`: with the default filter,
      `getFilteredTasks` returns the list itself and `sort` reorders it in
      place; the other filters sort a copy. */
  function AfterRender(tasks: seq<WorkTask>, filter: StoredFilter): seq<WorkTask>
  {
    if filter.AllTasks? then SortBy(tasks, ListOrder()) else tasks
  }

  /** Rendering never adds or loses a task, and with the default filter it
      leaves the list in display order. */
  lemma AfterRenderKeepsTasks(tasks: seq<WorkTask>, filter: StoredFilter, today: int)
    ensures multiset(AfterRender(tasks, filter)) == multiset(tasks)
    ensures filter.AllTasks? ==> AfterRender(tasks, filter) == RenderedTasks(tasks, filter, today)
    ensures !filter.AllTasks? ==> AfterRender(tasks, filter) == tasks
  {
  }

  predicate PendingToday(today: int, t: WorkTask)
  {
    t.dueDate == today && !t.completed
  }

  /** The pending tasks due today, in list order. */
  function PendingTodayTasks(tasks: seq<WorkTask>, today: int): seq<WorkTask>
  {
    Filter(tasks, t => PendingToday(today, t))
  }

  lemma PendingTodayMembers(tasks: seq<WorkTask>, today: int)
    ensures forall t :: t in PendingTodayTasks(tasks, today) <==> t in tasks && PendingToday(today, t)
  {
    FilterMembers(tasks, t => PendingToday(today, t));
  }

  /** The tasks `renderTodayTasks` shows, in its order. */
  function TodayTasks(tasks: seq<WorkTask>, today: int): seq<WorkTask>
  {
    SortBy(PendingTodayTasks(tasks, today), TodayOrder())
  }

  /** The today panel holds exactly the pending tasks due today (as a
      multiset), by priority rank descending. */
  lemma TodayTasksOrder(tasks: seq<WorkTask>, today: int)
    ensures multiset(TodayTasks(tasks, today)) == multiset(PendingTodayTasks(tasks, today))
    ensures forall t :: t in TodayTasks(tasks, today) <==> t in tasks && PendingToday(today, t)
    ensures var r := TodayTasks(tasks, today);
      forall i, j :: 0 <= i < j < |r| ==> Rank(r[i].priority) >= Rank(r[j].priority)
  {
    PendingTodayMembers(tasks, today);
    OrdersAreTotalPreorders();
    SortBySorted(PendingTodayTasks(tasks, today), TodayOrder());
    var r := TodayTasks(tasks, today);
    forall t ensures t in r <==> t in PendingTodayTasks(tasks, today) {
      assert t in r <==> t in multiset(r);
    }
  }

  // ---------------------------------------------------------------------
  // Completion (toggleTask)

  /** The toggled record: `completed` flips, `completedAt` is the toggle
      instant when it is now completed and null otherwise. */
  function Flipped(t: WorkTask, now: int): (r: WorkTask)
    ensures r.completed == !t.completed
    ensures Consistent(r)
    ensures r.completed ==> r.completedAt == Some(now)
    ensures r.(completed := t.completed, completedAt := t.completedAt) == t
  {
    t.(completed := !t.completed, completedAt := if !t.completed then Some(now) else None)
  }

  /** Toggling a consistent pending task twice restores it. */
  lemma FlippedTwice(t: WorkTask, now: int, later: int)
    requires Consistent(t) && !t.completed
    ensures Flipped(Flipped(t, now), later) == t
  {
  }

  /** The position `this.tasks.find` stops at, or -1. */
  function FindTask(tasks: seq<WorkTask>, taskId: string): (k: int)
    ensures -1 <= k < |tasks|
    ensures k == -1 <==> forall i :: 0 <= i < |tasks| ==> tasks[i].id != taskId
    ensures 0 <= k ==> tasks[k].id == taskId && forall i :: 0 <= i < k ==> tasks[i].id != taskId
  {
    if tasks == [] then -1
    else if tasks[0].id == taskId then 0
    else
      var k := FindTask(tasks[1..], taskId);
      if k == -1 then -1 else k + 1
  }

  // ---------------------------------------------------------------------
  // Notification delays

  /** The daily summary delay: today's target time of day, moved one day
      later when it is not after `now`. */
  function SummaryDelay(now: int, minute: MinuteOfDay): int
  {
    var target := Midnight(DayOf(now)) + minute * MinuteMs;
    var reminderTime := if target <= now then target + DayMs else target;
    reminderTime - now
  }

  /** The delay is positive, at most a day, lands on the target time of day,
      and no earlier instant after `now` has that time of day. */
  lemma SummaryDelayBounds(now: int, minute: MinuteOfDay)
    ensures 0 < SummaryDelay(now, minute) <= DayMs
    ensures TimeOfDay(now + SummaryDelay(now, minute)) == minute * MinuteMs
    ensures forall x :: now < x < now + SummaryDelay(now, minute) ==> TimeOfDay(x) != minute * MinuteMs
  {
    var t := minute * MinuteMs;
    assert 0 <= t < DayMs;
    var day := DayOf(now);
    var midnight := Midnight(day);
    assert midnight <= now < midnight + DayMs;
    var fireDay := if midnight + t <= now then day + 1 else day;
    var fire := now + SummaryDelay(now, minute);
    assert fire == fireDay * DayMs + t;
    assert fire - DayMs <= now;
    OffsetInDay(fireDay, t);
    forall x | now < x < fire ensures TimeOfDay(x) != t {
      NotAtOffsetBetween(x, fireDay, t);
    }
  }

  /** The instant `t` after the midnight of `day` has time of day `t`. */
  lemma OffsetInDay(day: int, t: int)
    requires 0 <= t < DayMs
    ensures TimeOfDay(day * DayMs + t) == t
  {
  }

  /** Within the day before an instant of time of day `t`, no other instant
      has time of day `t`. */
  lemma NotAtOffsetBetween(x: int, day: int, t: int)
    requires 0 <= t < DayMs
    requires day * DayMs + t - DayMs < x < day * DayMs + t
    ensures TimeOfDay(x) != t
  {
  }


  /** The summary delay of the stored "HH:MM" setting; `None` stands for
      the text not naming a time (the delay is then NaN). */
  function SummaryDelayOf(now: int, dailyReminderTime: string): (r: Option<int>)
    ensures r.Some? <==> IsClockText(dailyReminderTime)
  {
    if IsClockText(dailyReminderTime) then Some(SummaryDelay(now, ClockMinutes(dailyReminderTime))) else None
  }

  /** The local instant `${dueDate}T${time}` names. */
  function TaskInstant(task: WorkTask): int
    requires task.time.Some?
  {
    Midnight(task.dueDate) + task.time.value * MinuteMs
  }

  /** `timeUntilTask - 10 minutes` */
  function ReminderDelay(task: WorkTask, now: int): int
    requires task.time.Some?
  {
    TaskInstant(task) - now - 10 * MinuteMs
  }

  datatype Reminder = Reminder(task: WorkTask, delay: int)

  /** Whether `scheduleTaskReminders` sets a timer for this task. */
  predicate WillRemind(task: WorkTask, now: int)
  {
    !task.completed && task.time.Some? && ReminderDelay(task, now) > 0
  }

  /** The timers `scheduleTaskReminders` sets, in list order. */
  function ReminderPlan(tasks: seq<WorkTask>, now: int): seq<Reminder>
    decreases |tasks|
  {
    if tasks == [] then []
    else
      var last := tasks[|tasks| - 1];
      ReminderPlan(tasks[..|tasks| - 1], now)
        + (if WillRemind(last, now) then [Reminder(last, ReminderDelay(last, now))] else [])
  }

  /** Every timer belongs to a pending task with a time and fires ten
      minutes before it, after a positive delay; every such task gets one. */
  lemma {:induction false} ReminderPlanMembers(tasks: seq<WorkTask>, now: int)
    ensures forall r :: r in ReminderPlan(tasks, now) ==>
      && r.task in tasks && WillRemind(r.task, now)
      && r.delay > 0 && now + r.delay == TaskInstant(r.task) - 10 * MinuteMs
    ensures forall t :: t in tasks && WillRemind(t, now) ==> Reminder(t, ReminderDelay(t, now)) in ReminderPlan(tasks, now)
    ensures |ReminderPlan(tasks, now)| <= |tasks|
    decreases |tasks|
  {
    if tasks != [] {
      var init := tasks[..|tasks| - 1];
      ReminderPlanMembers(init, now);
      assert tasks == init + [tasks[|tasks| - 1]];
    }
  }

  /** `scheduleTaskNotification` for a newly added task: `None` when no
      timer is set. Unlike the batch it does not look at `completed`. */
  function TaskNotificationDelay(settings: Settings, task: WorkTask, now: int): (r: Option<int>)
    ensures r.Some? <==> settings.notificationsEnabled && task.time.Some? && ReminderDelay(task, now) > 0
    ensures r.Some? ==> r.value > 0 && now + r.value == TaskInstant(task) - 10 * MinuteMs
  {
    if !settings.notificationsEnabled || task.time.None? then None
    else
      var reminderTime := ReminderDelay(task, now);
      if reminderTime > 0 then Some(reminderTime) else None
  }

  /** For a pending task the single scheduler agrees with the batch one. */
  lemma TaskNotificationAgreesWithPlan(settings: Settings, task: WorkTask, now: int)
    requires settings.notificationsEnabled && !task.completed
    ensures TaskNotificationDelay(settings, task, now).Some? <==> ReminderPlan([task], now) != []
    ensures TaskNotificationDelay(settings, task, now).Some? ==>
      ReminderPlan([task], now) == [Reminder(task, TaskNotificationDelay(settings, task, now).value)]
  {
    assert [task][..0] == [];
  }

  /** What `scheduleNotifications` sets up: the summary delay (when the
      summary is on) and the task timers (when reminders are on), nothing
      unless notifications are enabled and permitted. */
  datatype Schedule = Schedule(summary: Option<Option<int>>, reminders: seq<Reminder>)

  function ScheduleFor(settings: Settings, permissionGranted: bool, tasks: seq<WorkTask>, now: int): (r: Schedule)
    ensures !settings.notificationsEnabled || !permissionGranted ==> r == Schedule(None, [])
    ensures r.summary.Some? <==> settings.notificationsEnabled && permissionGranted && settings.dailySummaryEnabled
    ensures r.summary.Some? ==> r.summary.value == SummaryDelayOf(now, settings.dailyReminderTime)
    ensures r.reminders != [] ==> settings.notificationsEnabled && permissionGranted && settings.taskReminderEnabled
    ensures settings.notificationsEnabled && permissionGranted && settings.taskReminderEnabled ==>
      r.reminders == ReminderPlan(tasks, now)
  {
    if !settings.notificationsEnabled || !permissionGranted then Schedule(None, [])
    else
      Schedule(
        if settings.dailySummaryEnabled then Some(SummaryDelayOf(now, settings.dailyReminderTime)) else None,
        if settings.taskReminderEnabled then ReminderPlan(tasks, now) else [])
  }

  // ---------------------------------------------------------------------
  // Notification contents

  datatype Notice = Notice(title: string, body: string)

  /** `sendTaskReminder`: nothing for a completed task. */
  function TaskReminderNotice(task: WorkTask): (r: Option<Notice>)
    requires task.time.Some?
    ensures r.None? <==> task.completed
    ensures r.Some? ==> r.value.title == "Task Reminder: " + task.title
  {
    if task.completed then None
    else Some(Notice("Task Reminder: " + task.title,
                     "Scheduled for " + ClockText(task.time.value) + ". Priority: " + PriorityLabel(task.priority)))
  }

  /** The choice `sendDailySummaryNotification` makes. */
  datatype Summary = NoSummary | Plain(pending: nat) | WithHighPriority(pending: nat, high: nat)

  predicate IsHighPriority(t: WorkTask)
  {
    t.priority == High || t.priority == Critical
  }

  function SummaryOf(tasks: seq<WorkTask>, today: int): Summary
  {
    var todayTasks := PendingTodayTasks(tasks, today);
    if |todayTasks| == 0 then NoSummary
    else
      var priorityTasks := Filter(todayTasks, IsHighPriority);
      if |priorityTasks| > 0 then WithHighPriority(|todayTasks|, |priorityTasks|) else Plain(|todayTasks|)
  }

  /** A summary is sent exactly when some pending task is due today; it
      counts them, and it mentions a high-priority count exactly when some
      of them are high or critical, counting those. */
  lemma SummaryChoice(tasks: seq<WorkTask>, today: int)
    ensures SummaryOf(tasks, today) == NoSummary <==> forall t :: t in tasks ==> !PendingToday(today, t)
    ensures SummaryOf(tasks, today).Plain? ==>
      SummaryOf(tasks, today).pending == |PendingTodayTasks(tasks, today)|
      && forall t :: t in tasks && PendingToday(today, t) ==> !IsHighPriority(t)
    ensures SummaryOf(tasks, today).WithHighPriority? ==>
      var s := SummaryOf(tasks, today);
      s.pending == |PendingTodayTasks(tasks, today)| && 0 < s.high <= s.pending
      && s.high == Count(PendingTodayTasks(tasks, today), IsHighPriority)
      && exists t :: t in tasks && PendingToday(today, t) && IsHighPriority(t)
  {
    var todayTasks := PendingTodayTasks(tasks, today);
    PendingTodayMembers(tasks, today);
    FilterMembers(todayTasks, IsHighPriority);
    if |todayTasks| > 0 {
      assert todayTasks[0] in todayTasks;
      var priorityTasks := Filter(todayTasks, IsHighPriority);
      if |priorityTasks| > 0 {
        assert priorityTasks[0] in priorityTasks;
      }
    }
  }

  /** The summary text. */
  function SummaryText(s: Summary): (r: Option<string>)
    ensures r.None? <==> s.NoSummary?
  {
    match s
    case NoSummary => None
    case Plain(n) => Some("Good morning! You have " + NatText(n) + " tasks scheduled for today.")
    case WithHighPriority(n, k) =>
      Some("Good morning! You have " + NatText(n) + " tasks today, including " + NatText(k) + " high-priority tasks.")
  }

  // ---------------------------------------------------------------------
  // List edits

  /** `this.tasks.filter(task => task.id !== taskId)` */
  function WithoutTask(tasks: seq<WorkTask>, taskId: string): (r: seq<WorkTask>)
    ensures forall t :: t in r <==> t in tasks && t.id != taskId
    ensures IsSubsequence(r, tasks)
  {
    FilterMembers(tasks, (t: WorkTask) => t.id != taskId);
    FilterIsSubsequence(tasks, (t: WorkTask) => t.id != taskId);
    Filter(tasks, (t: WorkTask) => t.id != taskId)
  }
}
