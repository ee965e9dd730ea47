/** The `DailyWorkManager` object of app.js: the task list, the settings
    and the current filter, with the methods that change them, each proved
    against the rules of module WorkManager. */
module WorkManagerApp {
  import opened Basics
  import opened Ordering
  import opened Clock
  import opened WorkManager

  class DailyWorkManager {
    var tasks: seq<WorkTask>
    var settings: Settings
    var currentFilter: StoredFilter

    /** Loads the stored list and settings (`|| []`, `|| { defaults }`) with
        the 'all' filter; `init` then renders the list, which sorts it. */
    constructor (storedTasks: Option<seq<WorkTask>>, storedSettings: Option<Settings>, today: int)
      ensures tasks == AfterRender(if storedTasks.Some? then storedTasks.value else [], AllTasks("all"))
      ensures settings == if storedSettings.Some? then storedSettings.value else DefaultSettings()
      ensures currentFilter == AllTasks("all")
    {
      tasks := if storedTasks.Some? then storedTasks.value else [];
      settings := if storedSettings.Some? then storedSettings.value else DefaultSettings();
      currentFilter := AllTasks("all");
      new;
      var _ := RenderTasks(today);
    }

    /** `renderTasks`: the tasks shown, in order. With the default filter
        the stored list itself is sorted. */
    method RenderTasks(today: int) returns (shown: seq<WorkTask>)
      modifies this`tasks
      ensures shown == RenderedTasks(old(tasks), currentFilter, today)
      ensures tasks == AfterRender(old(tasks), currentFilter)
    {
      var filteredTasks := FilteredTasks(tasks, currentFilter, today);
      if |filteredTasks| == 0 {
        return [];
      }
      shown := SortBy(filteredTasks, ListOrder());
      if currentFilter.AllTasks? {
        tasks := shown;
      }
    }

    /** `addTask`: a task needs a title and a due date; it starts pending.
        Returns whether it was added and the delay of the reminder timer set
        for it, if any. */
    method AddTask(id: string, title: string, description: string, priority: Priority,
                   dueDate: Option<int>, time: Option<MinuteOfDay>, now: int, today: int)
      returns (added: bool, reminder: Option<int>)
      modifies this`tasks
      ensures added <==> title != "" && dueDate.Some?
      ensures !added ==> tasks == old(tasks) && reminder == None
      ensures added ==>
        var task := WorkTask(id, title, description, priority, dueDate.value, time, false, now, None);
        && tasks == AfterRender(old(tasks) + [task], currentFilter)
        && reminder == TaskNotificationDelay(settings, task, now)
    {
      if title == "" || dueDate.None? {
        return false, None;
      }
      var task := WorkTask(id, title, description, priority, dueDate.value, time, false, now, None);
      tasks := tasks + [task];
      var _ := RenderTasks(today);
      added, reminder := true, None;
      if settings.notificationsEnabled && time.Some? {
        reminder := TaskNotificationDelay(settings, task, now);
      }
    }

    /** `deleteTask`, after the user confirms. */
    method DeleteTask(taskId: string, confirmed: bool, today: int)
      modifies this`tasks
      ensures tasks == if confirmed then AfterRender(WithoutTask(old(tasks), taskId), currentFilter) else old(tasks)
    {
      if confirmed {
        tasks := WithoutTask(tasks, taskId);
        var _ := RenderTasks(today);
      }
    }

    /** `toggleTask`: flips the first task with the id; an unknown id
        changes nothing. */
    method ToggleTask(taskId: string, now: int, today: int)
      modifies this`tasks
      ensures FindTask(old(tasks), taskId) == -1 ==> tasks == old(tasks)
      ensures FindTask(old(tasks), taskId) != -1 ==>
        var k := FindTask(old(tasks), taskId);
        tasks == AfterRender(old(tasks)[k := Flipped(old(tasks)[k], now)], currentFilter)
    {
      var i := 0;
      while i < |tasks| && tasks[i].id != taskId
        invariant 0 <= i <= |tasks|
        invariant forall j :: 0 <= j < i ==> tasks[j].id != taskId
      {
        i := i + 1;
      }
      if i == |tasks| {
        return;
      }
      tasks := tasks[i := Flipped(tasks[i], now)];
      var _ := RenderTasks(today);
    }

    /** `setFilter`, which re-renders the list. */
    method SetFilter(filter: StoredFilter, today: int) returns (shown: seq<WorkTask>)
      modifies this`currentFilter, this`tasks
      ensures currentFilter == filter
      ensures shown == RenderedTasks(old(tasks), filter, today)
      ensures tasks == AfterRender(old(tasks), filter)
    {
      currentFilter := filter;
      shown := RenderTasks(today);
    }

    /** `scheduleTaskReminders`: one timer per pending task with a time
        whose reminder instant is still ahead. */
    method ScheduleTaskReminders(now: int) returns (plan: seq<Reminder>)
      ensures plan == ReminderPlan(tasks, now)
    {
      var list := tasks;
      plan := [];
      for i := 0 to |list|
        invariant plan == ReminderPlan(list[..i], now)
      {
        var task := list[i];
        assert list[..i + 1][..i] == list[..i];
        if task.completed || task.time.None? {
          continue;
        }
        var reminderTime := ReminderDelay(task, now);
        if reminderTime > 0 {
          plan := plan + [Reminder(task, reminderTime)];
        }
      }
      assert list[..|list|] == list;
    }

    /** `scheduleNotifications` */
    method ScheduleNotifications(permissionGranted: bool, now: int) returns (schedule: Schedule)
      ensures schedule == ScheduleFor(settings, permissionGranted, tasks, now)
    {
      if !settings.notificationsEnabled || !permissionGranted {
        return Schedule(None, []);
      }
      var summary: Option<Option<int>> := None;
      if settings.dailySummaryEnabled {
        summary := Some(SummaryDelayOf(now, settings.dailyReminderTime));
      }
      var reminders := [];
      if settings.taskReminderEnabled {
        reminders := ScheduleTaskReminders(now);
      }
      schedule := Schedule(summary, reminders);
    }
  }
}
