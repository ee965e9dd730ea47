/** The `DailyTaskReminder` object of script.js: its four stored fields
    and the methods that update them, each proved against the rules of
    module TaskReminder. */
module TaskReminderApp {
  import opened Basics
  import opened Clock
  import opened TaskReminder

  class DailyTaskReminder {
    var tasks: seq<Task>
    var completedTasks: Ledger
    var streak: int
    var lastCompletionDate: Option<int>

    function State(): Snapshot
      reads this
    {
      Snapshot(tasks, completedTasks, streak, lastCompletionDate)
    }

    function Streak(): StreakState
      reads this
    {
      StreakState(streak, lastCompletionDate)
    }

    /** Loads the stored values with the same defaults as an import, then
        `init` runs `updateStreak` for today. */
    constructor (stored: BackupRecord, today: int)
      ensures tasks == Restored(stored).tasks && completedTasks == Restored(stored).completedTasks
      ensures Streak() == NextStreak(StreakState(Restored(stored).streak, Restored(stored).lastCompletionDate),
                                     DayQualifies(tasks, completedTasks, today), today)
    {
      var s := Restored(stored);
      tasks := s.tasks;
      completedTasks := s.completedTasks;
      streak := s.streak;
      lastCompletionDate := s.lastCompletionDate;
      new;
      UpdateStreak(today);
    }

    /** `addTask`: a task needs a title and a reminder time. */
    method AddTask(id: string, title: string, category: string, reminderTime: string,
                   repeatFrequency: StoredFrequency, notes: string, now: int) returns (added: bool)
      modifies this`tasks
      ensures added <==> title != "" && reminderTime != ""
      ensures tasks == if added
        then old(tasks) + [Task(id, title, category, reminderTime, repeatFrequency, notes, now, true, None)]
        else old(tasks)
    {
      if title == "" || reminderTime == "" {
        return false;
      }
      var task := Task(id, title, category, reminderTime, repeatFrequency, notes, now, true, None);
      tasks := tasks + [task];
      added := true;
    }

    /** `updateTask`: validates, finds the first task with the id and
        overwrites its editable fields. */
    method UpdateTask(taskId: string, title: string, category: string, reminderTime: string,
                      repeatFrequency: StoredFrequency, notes: string, now: int) returns (updated: bool)
      modifies this`tasks
      ensures updated <==> title != "" && reminderTime != "" && exists i :: 0 <= i < |old(tasks)| && old(tasks)[i].id == taskId
      ensures !updated ==> tasks == old(tasks)
      ensures updated ==> exists k ::
        && 0 <= k < |old(tasks)| && old(tasks)[k].id == taskId
        && (forall j :: 0 <= j < k ==> old(tasks)[j].id != taskId)
        && tasks == old(tasks)[k := Edited(old(tasks)[k], title, category, reminderTime, repeatFrequency, notes, now)]
    {
      if title == "" || reminderTime == "" {
        return false;
      }
      var i := 0;
      while i < |tasks| && tasks[i].id != taskId
        invariant 0 <= i <= |tasks|
        invariant forall j :: 0 <= j < i ==> tasks[j].id != taskId
      {
        i := i + 1;
      }
      if i == |tasks| {
        return false;
      }
      tasks := tasks[i := Edited(tasks[i], title, category, reminderTime, repeatFrequency, notes, now)];
      updated := true;
    }

    /** `deleteTask`, after the user confirms. */
    method DeleteTask(taskId: string, confirmed: bool)
      modifies this`tasks
      ensures tasks == if confirmed then WithoutTask(old(tasks), taskId) else old(tasks)
    {
      if !confirmed {
        return;
      }
      tasks := WithoutTask(tasks, taskId);
    }

    /** `toggleTask`: flips today's completion of the task, then runs `updateStreak`. */
    method ToggleTask(today: int, taskId: string)
      modifies this
      ensures tasks == old(tasks)
      ensures completedTasks == old(completedTasks)[today := Toggled(CompletedOn(old(completedTasks), today), taskId)]
      ensures Streak() == NextStreak(old(Streak()), DayQualifies(tasks, completedTasks, today), today)
    {
      // a missing list for today counts as an empty one
      var list := CompletedOn(completedTasks, today);
      var completedIndex := IndexOf(list, taskId);
      var newList;
      if completedIndex == -1 {
        newList := list + [taskId];
      } else {
        newList := list[..completedIndex] + list[completedIndex + 1..];
      }
      assert newList == Toggled(list, taskId);
      completedTasks := completedTasks[today := newList];
      UpdateStreak(today);
    }

    /** `updateStreak` */
    method UpdateStreak(today: int)
      modifies this`streak, this`lastCompletionDate
      ensures Streak() == NextStreak(old(Streak()), DayQualifies(tasks, completedTasks, today), today)
    {
      var yesterday := today - 1;
      var todaysTasks := DueOn(tasks, today);
      var todaysCompleted := CompletedOn(completedTasks, today);
      var allTodayTasksCompleted := |todaysTasks| > 0
        && forall i :: 0 <= i < |todaysTasks| ==> todaysTasks[i].id in todaysCompleted;
      if allTodayTasksCompleted && lastCompletionDate != Some(today) {
        if lastCompletionDate == Some(yesterday) {
          streak := streak + 1;
        } else {
          streak := 1;
        }
        lastCompletionDate := Some(today);
      }
    }

    /** The counting loop shared by `calculateWeekProgress` and
        `calculateMonthProgress`: due tasks and raw ledger entries over the
        `n` dates from `start`. */
    method CountWindow(start: int, n: nat) returns (totalTasks: nat, completed: nat)
      ensures totalTasks == DueTotal(tasks, start, n)
      ensures completed == DoneTotal(completedTasks, start, n)
    {
      var list, ledger := tasks, completedTasks;
      totalTasks, completed := 0, 0;
      for i := 0 to n
        invariant totalTasks == DueTotal(list, start, i)
        invariant completed == DoneTotal(ledger, start, i)
      {
        var date := start + i;
        TotalsStep(list, ledger, start, i);
        var dayTasks := DueOn(list, date);
        totalTasks := totalTasks + |dayTasks|;
        if date in ledger {
          completed := completed + |ledger[date]|;
        }
      }
    }

    /** `calculateWeekProgress`: the seven dates from the Sunday on or before today. */
    method CalculateWeekProgress(today: int) returns (progress: real)
      ensures progress == Percent(DoneTotal(completedTasks, WeekStart(today), 7), DueTotal(tasks, WeekStart(today), 7))
    {
      var startOfWeek := today - Weekday(today);
      var totalTasks, completed := CountWindow(startOfWeek, 7);
      progress := Percent(completed, totalTasks);
    }

    /** `calculateMonthProgress`: every date of the calendar month that
        contains today, from its first to its last day. */
    method CalculateMonthProgress(today: int) returns (progress: real)
      ensures var (year, month) := YearMonthOf(today);
        progress == Percent(DoneTotal(completedTasks, DayNumber(year, month, 1), DaysInMonth(year, month)),
                            DueTotal(tasks, DayNumber(year, month, 1), DaysInMonth(year, month)))
    {
      var (year, month) := YearMonthOf(today);
      var startOfMonth := DayNumber(year, month, 1);
      var totalTasks, completed := CountWindow(startOfMonth, DaysInMonth(year, month));
      progress := Percent(completed, totalTasks);
    }

    /** `checkReminders`: the tasks that get a notification at this minute,
        in list order. Nothing records what was already sent, so a second
        scan within the same minute selects the same tasks again. */
    method CheckReminders(today: int, minute: MinuteOfDay) returns (fired: seq<Task>)
      ensures fired == RemindersDue(tasks, completedTasks, today, minute)
    {
      var currentTime := ClockText(minute);
      var tasks, ledger := this.tasks, this.completedTasks;
      fired := [];
      for i := 0 to |tasks|
        invariant fired == RemindersDue(tasks[..i], ledger, today, minute)
      {
        var task := tasks[i];
        FilterAppend(tasks[..i], [task], t => ShouldRemind(t, ledger, today, minute));
        assert tasks[..i + 1] == tasks[..i] + [task];
        if task.reminderTime == currentTime && IsDue(task, today) && !IsTaskCompleted(ledger, today, task.id) {
          fired := fired + [task];
        }
      }
      assert tasks[..|tasks|] == tasks;
    }

    /** `importData` after JSON parsing (`None`: the file did not parse) and
        the user's confirmation. */
    method ImportData(data: Option<BackupRecord>, confirmed: bool)
      modifies this
      ensures State() == if data.Some? && confirmed then Restored(data.value) else old(State())
    {
      if data.None? || !confirmed {
        return;
      }
      var s := Restored(data.value);
      tasks := s.tasks;
      completedTasks := s.completedTasks;
      streak := s.streak;
      lastCompletionDate := s.lastCompletionDate;
    }
  }
}
