# Daily task apps — a verified Dafny model

This project models the in-memory bookkeeping of three small browser to-do
apps and proves properties of it. The apps are:

- **Daily Task Reminder** (`script.js`). Recurring tasks carry a reminder time and a repeat frequency. A ledger records, per date, the ids completed that day. The app also keeps a completion streak, week and month progress percentages, a per-minute reminder scan, a filtered and sorted task view, task add/update/delete, and the import of a backup.
- **Daily Work Manager** (`app.js`). Dated tasks have a priority. The app has list filters, priority orderings, a completion toggle, and the delay arithmetic that decides when the daily summary and the "10 minutes before" reminders fire. It also chooses the summary message.
- **WhatsApp notifier** (`whatsapp.js`). It has a phone-number check and a small settings state machine (enabled, verified). A send gate and the reminder message complete it.

Conventions:

- A date is an integer day number: day 0 is 1970-01-01, a Thursday, so the weekday is `(d + 4) % 7` with 0 meaning Sunday.
- An instant is an integer number of milliseconds in local time. A time of day is a minute `0..1439`.
- "Now", today's date, the user's confirmation and the outcome of a network request are parameters.

Modules:

- `Basics`: `Option`, `Array.prototype.filter`, sub-sequences and sums over a window of days.
- `Ordering`: code-unit lexicographic string order, and `Array.prototype.sort` as a stable insertion sort (`SortBy`).
- `Clock`: weekdays, the calendar, `HH:MM` text and the 12-hour `formatTime`, which `script.js` and `whatsapp.js` share.
- `TaskReminder` / `TaskReminderApp`: `script.js`. `TaskReminderApp` holds the class `DailyTaskReminder`, whose fields are `tasks`, `completedTasks`, `streak` and `lastCompletionDate`.
- `WorkManager` / `WorkManagerApp`: `app.js`. `WorkManagerApp` holds the class `DailyWorkManager`, whose fields are `tasks`, `settings` and `currentFilter`.
- `WhatsApp` / `WhatsAppApp`: `whatsapp.js`. `WhatsAppApp` holds the class `WhatsAppNotifier`, whose field is `settings`.

Where the apps work on plain values, the model uses functions and lemmas. Where a method of the app updates its object's fields, the class method
updates the same fields and is proved against those functions. One class method departs from the code as written. `WhatsAppApp.WhatsAppNotifier.SendTestMessage` follows the corrected test `WhatsApp.IntendedAfterTest`, for the reason given under "## Findings". The code as written is modelled by `WhatsApp.AfterTest`, and `WhatsApp.TestChangesNothing` shows that it never changes the settings.

Behaviour that follows the code rather than the apps' descriptions:

- **`active` is never read.** The `active` field is written when a task is added but never read, so an inactive task is still due (`TaskReminder.ActiveIsIgnored`).
- **Reminders repeat.** `checkReminders` does not de-duplicate. Every scan that happens in the task's minute selects it again.
- **Progress counts raw entries.** Progress adds the raw length of each day's ledger list, whether or not the ids are due tasks, so it can exceed 100% (`TaskReminder.ExtraEntriesExceedDue`).
- **An empty day breaks the streak.** The streak continues only from yesterday. A day with no due task, or with one left undone, therefore breaks it, even though such a day does not qualify (`TaskReminder.GapResetsStreak`).
- **Import defaults.** An import whose file lacks `tasks` replaces the list by `[]` rather than refusing the import.
- **Weekly offsets.** A weekly task's day offset is a floor over the creation instant. A task created after midnight is not due on its creation day (`TaskReminder.WeeklyOnCreationDay`).
- **The 'all' filter sorts the task list.** In the work manager, `getFilteredTasks` returns `this.tasks` itself for the 'all' filter. `renderTasks` then sorts that array in place, so rendering reorders the stored list (`WorkManager.AfterRender`).

## Model

| member | source | states |
|---|---|---|
| Basics.FilterMembers | script.js:215-232 | a filter keeps exactly the elements satisfying the predicate, each with its original multiplicity |
| Basics.FilterIsSubsequence | script.js:215-232 | a filter keeps the survivors in their original order |
| Basics.FilterAppend | script.js:447-454 | filtering a concatenation is the concatenation of the filtered parts (used by the reminder scan loop) |
| Basics.IndexOf | script.js:166 | `indexOf` gives -1 exactly when absent, otherwise the first position holding the value |
| Basics.SumRangeMonotone | script.js:347-358 | a sum over a window of days is monotone in the summand, and equal under equal summands |
| Basics.SumRangeStrict | script.js:347-358 | one strictly larger summand and none smaller makes the sum strictly larger |
| Ordering.StrLeqTotal | script.js:252 | the string order compares any two strings |
| Ordering.StrLeqTransitive | script.js:252 | the string order is transitive |
| Ordering.StrLeqAntisymmetric | script.js:252 | strings that compare both ways are equal |
| Ordering.SortBy | script.js:244-253 | sorting keeps the length and is a permutation of its input |
| Ordering.SortBySorted | script.js:244-253 | sorting with a total preorder yields a sequence ordered by it |
| Ordering.SortByStable | script.js:244-253 | sorting is stable: the elements that tie with any given element come out in their input order |
| Clock.Weekday | script.js:190 | `getDay` is in 0..6 |
| Clock.WeekdayAfterWeek | script.js:190 | the weekday repeats every seven days |
| Clock.CalendarAnchors | script.js:365 | 1970-01-01 is day 0 (a Thursday), 2000-01-01 is day 10957 (a Saturday) |
| Clock.DaysInMonth | script.js:366 | every month has 28 to 31 days |
| Clock.LastDayOfMonth | script.js:365-371 | the last day of a month is followed by the first day of the next month |
| Clock.DaysBeforeNextMonth | script.js:366 | the offsets of months increase by the length of each month |
| Clock.YearMonthOf | script.js:365 | `getFullYear()` and `getMonth()`: the month found starts on or before the date and ends after it |
| Clock.YearMonthOfUnique | script.js:365 | months do not overlap, so any month that holds the date is the one `YearMonthOf` finds |
| Clock.LeapYearStep | script.js:366 | the leap-year count grows by one exactly at a Gregorian leap year |
| Clock.NatTextValue | app.js:368-369 | the decimal text of a number reads back as that number |
| Clock.ClockText | script.js:444 | the `HH:MM` text of a minute of the day is well formed and denotes that minute |
| Clock.ClockTextOfMinutes | script.js:444 | every well-formed `HH:MM` text is the text of the minute it denotes |
| Clock.ClockTextInjective | script.js:448 | distinct minutes have distinct `HH:MM` texts |
| Clock.FormatTime | script.js:306-312 | definition of `formatTime`; its properties are in `Clock.FormatTimeHours`, `Clock.FormatTimeParts` and `Clock.FormatTimeRoundTrip` |
| Clock.FormatTimeHours | script.js:306-312 | hour 0 becomes "12:mm AM", 12 becomes "12:mm PM", 1-11 keep the hour with AM, 13-23 subtract 12 with PM; the minutes are copied |
| Clock.FormatTimeParts | whatsapp.js:193-199 | the 12-hour text splits into an hour of 1..12, two minute digits and an AM/PM flag |
| Clock.FormatTimeRoundTrip | script.js:306-312 | the 24-hour text is recovered from its 12-hour rendering, so the formatting loses nothing |
| TaskReminder.ParseFrequency | script.js:192-205 | reading a stored frequency string keeps its text |
| TaskReminder.FrequencyRoundTrip | script.js:192-205 | writing a stored frequency and reading it back gives the same frequency; a known word is never stored as an unrecognised one |
| TaskReminder.CompletedOn | script.js:394 | a date with a ledger entry has exactly that list, and a date without one has an empty list |
| TaskReminder.IsTaskCompleted | script.js:183-186 | a task is completed on a date exactly when its id is in that date's list |
| TaskReminder.JsRemainder7 | script.js:203 | the truncating remainder lies strictly between -7 and 7 and is zero exactly on multiples of 7 |
| TaskReminder.IsDue | script.js:188-206 | definition of `shouldShowTask`; its properties are in `TaskReminder.DailyAlwaysDue`, `TaskReminder.WeekdaysWeekendsComplementary`, `TaskReminder.ActiveIsIgnored` and `TaskReminder.WeeklyDue` |
| TaskReminder.DailyAlwaysDue | script.js:192-194 | daily and unrecognised frequencies are due on every date |
| TaskReminder.WeekdaysWeekendsComplementary | script.js:195-198 | 'weekdays' is due iff the weekday is 1..5, 'weekends' iff 0 or 6, and exactly one of them is due on every date |
| TaskReminder.ActiveIsIgnored | script.js:188-206 | the `active` flag does not affect whether a task is due |
| TaskReminder.DaysSinceCreatedFromFirstDay | script.js:201-202 | the floored day difference equals the number of days since the first midnight at or after creation |
| TaskReminder.WeeklyDue | script.js:199-203 | a weekly task is due exactly on dates a multiple of seven days after its first midnight |
| TaskReminder.WeeklyRepeatsEveryWeek | script.js:199-203 | a weekly task is due on a date iff it is due seven days later |
| TaskReminder.WeeklyOnCreationDay | script.js:199-203 | a weekly task is due on its creation date iff it was created exactly at midnight |
| TaskReminder.DueOnMembers | script.js:393 | the due list holds exactly the tasks due that date, as a sub-sequence of the task list |
| TaskReminder.Toggled | script.js:162-175 | an absent id is appended; a present id loses one occurrence and nothing else |
| TaskReminder.ToggledFlips | script.js:166-175 | on a duplicate-free list the toggle flips the id's membership, keeps every other id's and keeps the list duplicate-free |
| TaskReminder.ToggleTwice | script.js:166-175 | toggling twice restores the list when the id was absent, and its contents in every case |
| TaskReminder.DayQualifies | script.js:393-398 | definition of `allTodayTasksCompleted`; its use is stated in `TaskReminderApp.DailyTaskReminder.UpdateStreak` and `TaskReminder.NextStreak` |
| TaskReminder.NextStreak | script.js:393-406 | no change when the day does not qualify or was already counted; otherwise the streak is old+1 after yesterday and 1 after anything else, and today is recorded |
| TaskReminder.StreakIdempotent | script.js:400 | a second `updateStreak` on the same date changes nothing |
| TaskReminder.StreakInvariantKept | script.js:400-406 | a recorded completion date always carries a streak of at least one, and a qualifying call leaves the streak at least one |
| TaskReminder.QualifyingRun | script.js:400-406 | n consecutive qualifying days add n to the streak when they continue yesterday's, and set it to n otherwise |
| TaskReminder.GapResetsStreak | script.js:397-405 | a non-qualifying day between two qualifying days resets the streak to 1 |
| TaskReminder.TotalsStep | script.js:347-358 | extending the window by a date adds that date's due count and ledger length |
| TaskReminder.Percent | script.js:360 | definition of the progress ratio; its properties are in `TaskReminder.PercentMeaning`, `TaskReminder.DoneWithinDue` and `TaskReminder.ExtraEntriesExceedDue` |
| TaskReminder.PercentMeaning | script.js:360 | the percentage is 0 with no due tasks, otherwise completed·100/total: non-negative, at most 100 when completed ≤ total, 100 when equal, above 100 when more |
| TaskReminder.DoneWithinDue | script.js:347-360 | when no day has more entries than due tasks, progress is at most 100%, and 100% when every day matches |
| TaskReminder.ExtraEntriesExceedDue | script.js:355-357 | a day with more ledger entries than due tasks pushes progress above 100% |
| TaskReminder.WeekStart | script.js:341-342 | the week starts on the Sunday on or before today |
| TaskReminder.ShouldRemind | script.js:447-449 | definition of the reminder test; its properties are in `TaskReminder.RemindersDueMembers` and `TaskReminder.RemindsOnlyAtItsMinute` |
| TaskReminder.RemindersDue | script.js:442-455 | definition of the tasks one scan notifies; its properties are in `TaskReminder.RemindersDueMembers`, and `TaskReminderApp.DailyTaskReminder.CheckReminders` computes it |
| TaskReminder.RemindersDueMembers | script.js:447-454 | a scan selects exactly the tasks at the current minute, due today and not completed, in list order |
| TaskReminder.RemindsOnlyAtItsMinute | script.js:448 | a task with a well-formed reminder time fires only at the minute that time denotes |
| TaskReminder.PassesFilters | script.js:215-232 | definition of the three view filters; its properties are in `TaskReminder.VisibleTasksMembers` |
| TaskReminder.VisibleTasks | script.js:215-232 | definition of the filtered view; its properties are in `TaskReminder.VisibleTasksMembers` |
| TaskReminder.VisibleTasksMembers | script.js:215-232 | the view holds exactly the tasks passing the category, status and due filters, in list order |
| TaskReminder.ShownBefore | script.js:244-253 | definition of the view comparator; its properties are in `TaskReminder.ShownBeforeIsTotalPreorder` and `TaskReminder.RenderedTasksOrder` |
| TaskReminder.ShownBeforeIsTotalPreorder | script.js:244-253 | the view comparator is a total preorder |
| TaskReminder.RenderedTasks | script.js:209-253 | definition of the list `renderTasks` shows; its properties are in `TaskReminder.RenderedTasksOrder` |
| TaskReminder.RenderedTasksOrder | script.js:243-253 | the view is a permutation of the filtered tasks, incomplete before completed, and ordered by reminder time within each group |
| TaskReminder.Restored | script.js:582-585 | each present backup field is kept; missing ones default to an empty list, an empty ledger and zero; the last completion date is copied, absent when missing |
| TaskReminder.Exported | script.js:554-560 | definition of the `exportData` record; its property is in `TaskReminder.ExportImportRoundTrip` |
| TaskReminder.ExportImportRoundTrip | script.js:554-585 | importing an export restores every field |
| TaskReminder.Edited | script.js:130-138 | an edit sets title, category, time, frequency, notes and `updated`, and keeps id, created and active |
| TaskReminder.WithoutTask | script.js:151 | delete keeps exactly the tasks with another id, in order |
| TaskReminderApp.DailyTaskReminder.constructor | script.js:3-22 | the stored values are loaded with the import defaults, then the streak is updated |
| TaskReminderApp.DailyTaskReminder.AddTask | script.js:63-96 | a task is appended iff title and time are non-empty; otherwise nothing changes |
| TaskReminderApp.DailyTaskReminder.UpdateTask | script.js:114-146 | succeeds iff the form is valid and the id exists; exactly the first task with that id is replaced by its edit, and the others are unchanged |
| TaskReminderApp.DailyTaskReminder.DeleteTask | script.js:148-157 | after confirmation, exactly the tasks with that id are removed |
| TaskReminderApp.DailyTaskReminder.ToggleTask | script.js:159-181 | only today's ledger list changes, by the toggle; then the streak is updated |
| TaskReminderApp.DailyTaskReminder.UpdateStreak | script.js:385-410 | the streak fields become the streak step for today |
| TaskReminderApp.DailyTaskReminder.CountWindow | script.js:347-358 | the loop totals are the due task-days and the raw ledger lengths over the window |
| TaskReminderApp.DailyTaskReminder.CalculateWeekProgress | script.js:339-361 | the percentage over the seven dates from the Sunday on or before today |
| TaskReminderApp.DailyTaskReminder.CalculateMonthProgress | script.js:363-383 | the percentage over every date of the calendar month that contains today (`YearMonthOf(today)`), from its first to its last day |
| TaskReminderApp.DailyTaskReminder.CheckReminders | script.js:442-455 | the loop fires exactly the reminders the scan selects, in list order |
| TaskReminderApp.DailyTaskReminder.ImportData | script.js:572-602 | a parsed and confirmed import replaces the four fields with the defaulted values; otherwise nothing changes |
| WorkManager.Rank | app.js:219-220 | priority ranks are 1..4 |
| WorkManager.RankOrder | app.js:219-221 | low < medium < high < critical, and the rank identifies the priority |
| WorkManager.DefaultSettings | app.js:4-9 | notifications start off, the daily summary is at 09:00, and both reminder kinds are on |
| WorkManager.FilteredTasks | app.js:192-206 | definition of `getFilteredTasks`; its properties are in `WorkManager.FilteredTasksMembers` and `WorkManager.TodayAndUpcomingDisjoint` |
| WorkManager.ParseFilter | app.js:196-205 | the `switch` on `currentFilter`: each string takes the case it names, and the stored filter keeps the string |
| WorkManager.FilterRoundTrip | app.js:196-205 | writing a stored filter and reading it back gives the same filter; a recognised word never falls to the default case |
| WorkManager.FilteredTasksMembers | app.js:192-206 | 'today', 'upcoming' and 'completed' keep exactly their tasks, in order; any other filter returns the list itself |
| WorkManager.TodayAndUpcomingDisjoint | app.js:196-200 | no task is both in 'today' and in 'upcoming' |
| WorkManager.ListOrder | app.js:218-225 | definition of the `renderTasks` comparator; its properties are in `WorkManager.OrdersAreTotalPreorders` and `WorkManager.RenderedTasksOrder` |
| WorkManager.TodayOrder | app.js:243-246 | definition of the `renderTodayTasks` comparator; its properties are in `WorkManager.OrdersAreTotalPreorders` and `WorkManager.TodayTasksOrder` |
| WorkManager.OrdersAreTotalPreorders | app.js:218-225 | both comparators are total preorders |
| WorkManager.RenderedTasks | app.js:208-225 | definition of the list `renderTasks` shows; its properties are in `WorkManager.RenderedTasksOrder` |
| WorkManager.RenderedTasksOrder | app.js:218-225 | the list is a permutation of the filtered tasks, by rank descending, and by due date ascending within a rank |
| WorkManager.AfterRender | app.js:208-225 | definition of the stored list after `renderTasks`; its properties are in `WorkManager.AfterRenderKeepsTasks` |
| WorkManager.AfterRenderKeepsTasks | app.js:196-225 | rendering with the 'all' filter reorders the stored list into the rendered order and otherwise leaves it alone; the contents never change |
| WorkManager.PendingTodayTasks | app.js:233-235 | definition of today's pending tasks; its properties are in `WorkManager.PendingTodayMembers` and `WorkManager.SummaryChoice` |
| WorkManager.PendingTodayMembers | app.js:233-235 | today's panel holds exactly the pending tasks due today |
| WorkManager.TodayTasks | app.js:230-246 | definition of the `renderTodayTasks` list; its properties are in `WorkManager.TodayTasksOrder` |
| WorkManager.TodayTasksOrder | app.js:233-246 | today's panel is a permutation of those tasks, by rank descending |
| WorkManager.Flipped | app.js:170-173 | the toggle flips `completed`, sets `completedAt` to now iff now completed, and changes nothing else |
| WorkManager.FlippedTwice | app.js:170-173 | toggling a pending task twice restores it |
| WorkManager.FindTask | app.js:169 | `find` gives the first task with the id, or -1 when there is none |
| WorkManager.SummaryDelay | app.js:340-351 | definition of the daily summary delay; its properties are in `WorkManager.SummaryDelayBounds` |
| WorkManager.SummaryDelayBounds | app.js:341-351 | the summary delay is positive and at most one day, it lands on the configured minute, and no earlier instant after now does |
| WorkManager.SummaryDelayOf | app.js:342-344 | a summary delay exists iff the configured time is well-formed `HH:MM` |
| WorkManager.ReminderDelay | app.js:385-389 | definition of the delay ten minutes before a task; its properties are in `WorkManager.ReminderPlanMembers` and `WorkManager.TaskNotificationDelay` |
| WorkManager.ReminderPlan | app.js:379-397 | definition of the timers `scheduleTaskReminders` sets; its properties are in `WorkManager.ReminderPlanMembers`, and `WorkManagerApp.DailyWorkManager.ScheduleTaskReminders` computes it |
| WorkManager.ReminderPlanMembers | app.js:379-397 | only pending tasks with a time and a positive delay are planned, every such task is planned with that delay, and the plan is no longer than the list |
| WorkManager.TaskNotificationDelay | app.js:399-412 | a reminder is set iff notifications are on, the task has a time and the delay is positive; it fires ten minutes before the task |
| WorkManager.TaskNotificationAgreesWithPlan | app.js:383-410 | for a pending task the single-task schedule and the bulk plan agree |
| WorkManager.ScheduleFor | app.js:324-338 | nothing is scheduled without notifications and permission; the summary iff its switch is on too; reminders only when their switch is on, and then exactly the plan of `ReminderPlan` |
| WorkManager.TaskReminderNotice | app.js:414-422 | a completed task gets no notice; otherwise the title names the task |
| WorkManager.SummaryOf | app.js:362-370 | definition of the daily summary choice; its properties are in `WorkManager.SummaryChoice` and `WorkManager.SummaryText` |
| WorkManager.SummaryChoice | app.js:362-370 | a summary is sent iff some pending task is due today; it counts them, and mentions the high-priority count iff some are high or critical |
| WorkManager.SummaryText | app.js:366-370 | a message exists exactly when a summary is sent |
| WorkManager.WithoutTask | app.js:161 | delete keeps exactly the tasks with another id, in order |
| WorkManagerApp.DailyWorkManager.constructor | app.js:2-22 | stored tasks (or none) and stored settings (or the defaults) are loaded, the filter is 'all', and the list is rendered; the `scheduleNotifications` call is left out (see "## Left out") |
| WorkManagerApp.DailyWorkManager.RenderTasks | app.js:208-228 | shows the ordered filtered list; with 'all', the stored list is left sorted |
| WorkManagerApp.DailyWorkManager.AddTask | app.js:118-157 | a task is added iff title and due date are present; it starts pending; a reminder is scheduled as `scheduleTaskNotification` decides |
| WorkManagerApp.DailyWorkManager.DeleteTask | app.js:159-166 | after confirmation exactly the tasks with the id are removed, then the list is rendered |
| WorkManagerApp.DailyWorkManager.ToggleTask | app.js:168-181 | only the first task with the id is flipped; an unknown id changes nothing |
| WorkManagerApp.DailyWorkManager.SetFilter | app.js:183-190 | the filter is recorded and the list rendered with it; the filter is a `StoredFilter`, so a recognised word always takes its own case |
| WorkManagerApp.DailyWorkManager.ScheduleTaskReminders | app.js:379-397 | the loop schedules exactly the reminder plan |
| WorkManagerApp.DailyWorkManager.ScheduleNotifications | app.js:324-338 | the schedule is the gated summary and reminder plan |
| WhatsApp.DefaultSettings | whatsapp.js:4-9 | the defaults are disabled, unverified, with empty phone and key |
| WhatsApp.Matches | whatsapp.js:79-81 | definition of the regular-expression test as a left-to-right matcher; its property is in `WhatsApp.MatchesIffE164` |
| WhatsApp.IsE164 | whatsapp.js:79-81 | definition of the pattern `^\+[1-9]\d{1,14}$`; its properties are in `WhatsApp.E164Digits` and `WhatsApp.MatchesIffE164` |
| WhatsApp.MatchesIffE164 | whatsapp.js:80 | the left-to-right matcher accepts exactly "+", a digit 1-9 and 1 to 14 more digits |
| WhatsApp.E164Digits | whatsapp.js:80 | a valid number has 2 to 15 digits with no leading zero |
| WhatsApp.ValidatePhoneNumber | whatsapp.js:79-91 | the check passes iff the phone is empty or has the E.164 shape |
| WhatsApp.AfterToggle | whatsapp.js:47-56 | switching on changes nothing; switching off clears `enabled` only |
| WhatsApp.SaveCheck | whatsapp.js:98-105 | an enabled save with a missing field is refused, then one with an invalid phone; anything else is saved |
| WhatsApp.AfterSave | whatsapp.js:93-116 | definition of the settings after `saveSettings`; `WhatsAppApp.WhatsAppNotifier.SaveSettings` follows it and `WhatsApp.ActionKeepsReady` is about it |
| WhatsApp.SendMessage | whatsapp.js:144-171 | without enabled and verified nothing is sent; otherwise phone, text and key are sent and success is the delivery |
| WhatsApp.AfterTest | whatsapp.js:118-142 | definition of `sendTestMessage` as written, the as-written half of the finding; its properties are in `WhatsApp.TestChangesNothing` and `WhatsApp.NeverVerified` |
| WhatsApp.TestChangesNothing | whatsapp.js:118-147 | as written, the test message never changes the settings |
| WhatsApp.Apply | whatsapp.js:20-33 | definition of one user action on the settings panel (toggle, save or test, as written); its properties are in `WhatsApp.NeverVerified` and `WhatsApp.ActionKeepsReady` |
| WhatsApp.Run | whatsapp.js:20-33 | definition of a sequence of user actions, as written; its property is in `WhatsApp.NeverVerified` |
| WhatsApp.NeverVerified | whatsapp.js:118-147 | as written, unverified settings stay unverified under any sequence of toggles, saves and tests |
| WhatsApp.IntendedAfterTest | whatsapp.js:119-134 | the intended test: nothing without phone and key; otherwise a delivered test sets `verified` |
| WhatsApp.ActionKeepsReady | whatsapp.js:47-142 | every action keeps "enabled implies a key and a valid phone" |
| WhatsApp.IntendedRunReady | whatsapp.js:47-142 | that invariant holds along every run with the intended test |
| WhatsApp.IntendedSetupActivates | whatsapp.js:93-142 | a valid enabled save then a delivered test activates notifications with the intended test, and does not as written |
| WhatsApp.CategoryEmoji | whatsapp.js:178-186 | definition of the category emoji table (see "## Left out"); it opens the title line of the message whose layout `WhatsApp.ReminderMessageParts` states |
| WhatsApp.ReminderMessage | whatsapp.js:188 | definition of the reminder text; its properties are in `WhatsApp.ReminderMessageParts` |
| WhatsApp.ReminderMessageParts | whatsapp.js:188 | the message contains the formatted time and the frequency, and has a "Notes: …" segment before the closing line iff the notes are non-empty |
| WhatsApp.SendTaskReminder | whatsapp.js:173-191 | without `isEnabled` nothing is sent; otherwise the request carries the reminder message |
| WhatsAppApp.WhatsAppNotifier.constructor | whatsapp.js:3-11 | the stored settings or the defaults |
| WhatsAppApp.WhatsAppNotifier.IsEnabled | whatsapp.js:255-257 | enabled and verified |
| WhatsAppApp.WhatsAppNotifier.GetSettings | whatsapp.js:260-262 | a value equal to the settings; as a value it shares nothing with the field |
| WhatsAppApp.WhatsAppNotifier.ToggleWhatsAppConfig | whatsapp.js:47-56 | the settings take the toggle step |
| WhatsAppApp.WhatsAppNotifier.SaveSettings | whatsapp.js:93-116 | refused saves change nothing; an accepted one stores the three fields with `verified` false |
| WhatsAppApp.WhatsAppNotifier.SendTestMessage | whatsapp.js:118-142 | the corrected test: nothing is sent without phone and key; otherwise the test message is sent to them and a delivered test sets `verified` |
| WhatsAppApp.WhatsAppNotifier.SendTaskReminder | whatsapp.js:173-191 | the reminder send; success implies enabled, verified and delivered |

## Left out

- DOM reading and HTML rendering are not modelled: forms, template strings, modals, toasts, banners, statistics counters (`updateStats`, `updateProgressBars`). The view is modelled as the filtered and ordered list.
- `localStorage`, `JSON.parse`/`stringify`, Blob export and FileReader import are not modelled: they are foreign calls. A stored record is an `Option` parameter, a file that fails to parse is `None`, and only the field defaulting is modelled.
- Timers (`setInterval`, `setTimeout`) are not modelled: a scan is one call with the current minute, and a scheduled callback is represented by its delay.
- The browser Notification API and its permission request are not modelled: permission is a parameter, and a notification is its title and body.
- The settings panel of the work manager (`showSettings`, `saveSettings`) is not modelled: it only copies form fields into `settings`.
- `fetch` is not modelled: the request it would make is returned, and whether it went through is the `delivered` input.
- The URL encoding of the request parameters is not modelled.
- No time zones: JavaScript `Date`, time zones, DST-length days, `toDateString` keys and ISO-string parsing are abstracted to day numbers and instants in one local time. `sendDailySummaryNotification` takes today from `toISOString`, a UTC date; the model uses the same day number as the other operations.
- `trim` on form fields is not modelled: the fields are given already trimmed.
- `localeCompare` is modelled as code-unit lexicographic order. For the `HH:MM` times it is used on, the two agree.
- Percentages are exact reals, not IEEE doubles.
- `Date.now()` ids are not generated: an id is a parameter.
- The service worker and `main.js` are not part of this model.
- A stored work-manager priority outside the four form values is not modelled: the priority is one of the four.
- Clock.FormatTime: requires a well-formed `HH:MM` text, which is what the time input of the form supplies. Outside those inputs the source still renders something, and the model does not say what. For example, "9:30" renders as "9:30 AM", and "" renders as "12:undefined AM", because `NaN % 12 || 12` is 12.
- WhatsApp.ReminderMessage: requires a well-formed `HH:MM` reminder time, because it renders the time with `FormatTime`. Other reminder times are not covered, as for `FormatTime`.
- WorkManager.SummaryDelayOf: gives `None` for any daily time that is not a well-formed `HH:MM` text. The source reads each part with `parseInt`, so it still schedules texts such as "9:05" or "09:30:00" normally. Only a text whose hour or minute part is missing or does not start with a number, such as "" or "9", gives `NaN`, and then the summary fires at once.
- WhatsApp.CategoryEmoji: covers the seven categories of the form and an unknown category, which interpolates as the text `undefined`. Outside the form's categories the source looks the category up as an object key. An inherited key such as "toString" therefore interpolates the source text of a function, and the model does not give that.
- WorkManagerApp.DailyWorkManager.constructor: the `scheduleNotifications` call of `init` is not made. It changes no modelled field, and what it would schedule is `ScheduleNotifications` called on the new object.
- TaskReminder.Edited: the `updateTask` object spread is modelled field by field over the known fields only.

## Findings

| source | as written | input that shows it | evidently intended | confidence | as-written member | corrected member |
|---|---|---|---|---|---|---|
| whatsapp.js:118-147 | `sendTestMessage` sends through `sendWhatsAppMessage`, which refuses unless `verified` already holds, so a test never succeeds and `verified` never becomes true | default settings, then a save with enabled, "+14155550123" and a key, then a test whose request would be delivered: `verified` stays false | the test message bypasses the send gate (enabled and verified), so a test goes out whenever phone and key are set, and a delivered test sets `verified` | high, not executed | WhatsApp.NeverVerified | WhatsApp.IntendedAfterTest |
