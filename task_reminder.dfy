/** The Daily Task Reminder engine (script.js): recurring tasks, the
    per-day completion ledger, the streak, week and month progress, the
    per-minute reminder selection and the order of the task list.

    "Today" and "now" are inputs: a day number, a minute of the day or an
    instant (see module Clock). A JavaScript date string such as
    `new Date().toDateString()` is modelled by the day number it names. */
module TaskReminder {
  import opened Basics
  import opened Ordering
  import opened Clock

  /** A task record. `created` is the creation instant. `active` is written
      as true by addTask and read nowhere, so it has no effect on anything
      below. `updated` is absent until the task is edited. */
  datatype Task = Task(
    id: string,
    title: string,
    category: string,
    reminderTime: string,
    repeatFrequency: StoredFrequency,
    notes: string,
    created: int,
    active: bool,
    updated: Option<int>)

  /** The `repeatFrequency` field: the four values the task form offers,
      and any other stored string. */
  datatype Frequency = Daily | Weekdays | Weekends | Weekly | Unrecognised(text: string)

  /** The frequencies a stored string can denote: a known word always takes
      its own case, so `Unrecognised` only ever holds other text. */
  type StoredFrequency = f: Frequency | f.Unrecognised? ==> !IsKnownFrequency(f) witness Daily

  /** The stored string of a frequency. */
  function FrequencyText(f: Frequency): string
  {
    match f
    case Daily => "daily"
    case Weekdays => "weekdays"
    case Weekends => "weekends"
    case Weekly => "weekly"
    case Unrecognised(text) => text
  }

  /** Reads a stored string back; the four known words get their own case. */
  function ParseFrequency(text: string): (f: StoredFrequency)
    ensures FrequencyText(f) == text
  {
    if text == "daily" then Daily
    else if text == "weekdays" then Weekdays
    else if text == "weekends" then Weekends
    else if text == "weekly" then Weekly
    else Unrecognised(text)
  }

  predicate IsKnownFrequency(f: Frequency)
  {
    !f.Unrecognised? || f.text in {"daily", "weekdays", "weekends", "weekly"}
  }

  /** Writing a stored frequency and reading it back gives it again. */
  lemma FrequencyRoundTrip(f: StoredFrequency)
    ensures ParseFrequency(FrequencyText(f)) == f
  {
  }

  /** `completedTasks`: for each date, the ids completed that day, in the
      order they were ticked. */
  type Ledger = map<int, seq<string>>

  /** `this.completedTasks[day] || []` */
  function CompletedOn(ledger: Ledger, day: int): (ids: seq<string>)
    ensures day !in ledger ==> ids == []
    ensures day in ledger ==> ids == ledger[day]
  {
    if day in ledger then ledger[day] else []
  }

  /** `isTaskCompleted`: the id is in the list of that day (an absent day
      counts as an empty list). */
  predicate IsTaskCompleted(ledger: Ledger, day: int, id: string)
    ensures IsTaskCompleted(ledger, day, id) <==> id in CompletedOn(ledger, day)
  {
    day in ledger && id in ledger[day]
  }

  // ---------------------------------------------------------------------
  // Recurrence rule (shouldShowTask)

  /** JavaScript's `x % 7`: the remainder takes the sign of the dividend. */
  function JsRemainder7(x: int): (r: int)
    ensures -7 < r < 7
    ensures r == 0 <==> x % 7 == 0
  {
    if x >= 0 then x % 7 else -((-x) % 7)
  }

  /** `Math.floor((todayDate - createdDate) / (1000 * 60 * 60 * 24))` where
      `todayDate` is the local midnight of `day`. */
  function DaysSinceCreated(task: Task, day: int): int
  {
    (Midnight(day) - task.created) / DayMs
  }

  /** `shouldShowTask`: whether the task is due on `day`. */
  predicate IsDue(task: Task, day: int)
  {
    var dayOfWeek := Weekday(day);
    match task.repeatFrequency
    case Daily => true
    case Weekdays => 1 <= dayOfWeek <= 5
    case Weekends => dayOfWeek == 0 || dayOfWeek == 6
    case Weekly => JsRemainder7(DaysSinceCreated(task, day)) == 0
    case Unrecognised(_) => true
  }

  /** 'daily' and every unrecognised frequency are due on every date. */
  lemma DailyAlwaysDue(task: Task, day: int)
    requires task.repeatFrequency == Daily || task.repeatFrequency.Unrecognised?
    ensures IsDue(task, day)
  {
  }

  /** 'weekdays' means Monday to Friday and 'weekends' Saturday and Sunday,
      so on every date exactly one of the two is due. */
  lemma WeekdaysWeekendsComplementary(task: Task, day: int)
    ensures IsDue(task.(repeatFrequency := Weekdays), day) <==> 1 <= Weekday(day) <= 5
    ensures IsDue(task.(repeatFrequency := Weekends), day) <==> Weekday(day) == 0 || Weekday(day) == 6
    ensures IsDue(task.(repeatFrequency := Weekdays), day)
        <==> !IsDue(task.(repeatFrequency := Weekends), day)
  {
  }

  /** The `active` flag is never consulted. */
  lemma ActiveIsIgnored(task: Task, day: int)
    ensures IsDue(task.(active := false), day) == IsDue(task, day)
  {
  }

  /** The first date whose midnight is not before the creation instant. */
  function FirstWeeklyDay(task: Task): int
  {
    (task.created + DayMs - 1) / DayMs
  }

  /** The floor over the creation instant counts whole days from
      `FirstWeeklyDay`. */
  lemma DaysSinceCreatedFromFirstDay(task: Task, day: int)
    ensures DaysSinceCreated(task, day) == day - FirstWeeklyDay(task)
  {
    var q, r := task.created / DayMs, task.created % DayMs;
    assert task.created == q * DayMs + r;
    if r == 0 {
      assert Midnight(day) - task.created == (day - q) * DayMs;
      assert task.created + DayMs - 1 == q * DayMs + (DayMs - 1);
    } else {
      assert Midnight(day) - task.created == (day - q - 1) * DayMs + (DayMs - r);
      assert task.created + DayMs - 1 == (q + 1) * DayMs + (r - 1);
    }
  }

  /** A weekly task is due exactly on the dates a multiple of seven days
      from `FirstWeeklyDay`. */
  lemma WeeklyDue(task: Task, day: int)
    requires task.repeatFrequency == Weekly
    ensures IsDue(task, day) <==> (day - FirstWeeklyDay(task)) % 7 == 0
  {
    DaysSinceCreatedFromFirstDay(task, day);
  }

  /** A weekly task is due on a date iff it is due a week later. */
  lemma WeeklyRepeatsEveryWeek(task: Task, day: int)
    requires task.repeatFrequency == Weekly
    ensures IsDue(task, day) <==> IsDue(task, day + 7)
  {
    WeeklyDue(task, day);
    WeeklyDue(task, day + 7);
    var x := day - FirstWeeklyDay(task);
    assert day + 7 - FirstWeeklyDay(task) == x + 7;
    ShiftBySeven(x);
  }

  lemma ShiftBySeven(x: int)
    ensures (x + 7) % 7 == x % 7
  {
  }

  /** A weekly task is due on the date it was created only when it was
      created exactly at midnight. */
  lemma WeeklyOnCreationDay(task: Task)
    requires task.repeatFrequency == Weekly
    ensures IsDue(task, DayOf(task.created)) <==> task.created % DayMs == 0
  {
    WeeklyDue(task, DayOf(task.created));
    var q, r := task.created / DayMs, task.created % DayMs;
    assert task.created + DayMs - 1 == q * DayMs + (r + DayMs - 1);
    if r == 0 {
      assert FirstWeeklyDay(task) == q;
    } else {
      assert FirstWeeklyDay(task) == q + 1;
    }
  }

  /** The tasks due on `day`, in list order (`this.tasks.filter(shouldShowTask)`). */
  function DueOn(tasks: seq<Task>, day: int): seq<Task>
  {
    Filter(tasks, t => IsDue(t, day))
  }

  /** The due list holds exactly the tasks due that day, in list order. */
  lemma DueOnMembers(tasks: seq<Task>, day: int)
    ensures forall t :: t in DueOn(tasks, day) <==> t in tasks && IsDue(t, day)
    ensures IsSubsequence(DueOn(tasks, day), tasks)
  {
    FilterMembers(tasks, t => IsDue(t, day));
    FilterIsSubsequence(tasks, t => IsDue(t, day));
  }

  // ---------------------------------------------------------------------
  // Completion ledger (toggleTask)

  /** The day's list after `toggleTask`: a missing id is pushed, a present
      one is spliced out at its first position. */
  function Toggled(ids: seq<string>, id: string): (r: seq<string>)
    ensures id !in ids ==> r == ids + [id]
    ensures id in ids ==> |r| == |ids| - 1 && multiset(r) == multiset(ids) - multiset{id}
  {
    var k := IndexOf(ids, id);
    if k == -1 then ids + [id]
    else
      assert ids == ids[..k] + [id] + ids[k + 1..];
      ids[..k] + ids[k + 1..]
  }

  /** On a duplicate-free list, toggling flips the id's membership, keeps
      every other id's membership and keeps the list duplicate-free. */
  lemma ToggledFlips(ids: seq<string>, id: string)
    requires NoDup(ids)
    ensures id in Toggled(ids, id) <==> id !in ids
    ensures forall x :: x != id ==> (x in Toggled(ids, id) <==> x in ids)
    ensures NoDup(Toggled(ids, id))
  {
    var r := Toggled(ids, id);
    forall x | x != id ensures x in r <==> x in ids {
      assert x in multiset(r) <==> x in multiset(ids);
    }
    if id in ids {
      var k := IndexOf(ids, id);
      assert r == ids[..k] + ids[k + 1..];
      RemovedAtIndex(ids, k);
    } else {
      AppendedFresh(ids, id);
    }
  }

  /** Splicing out the element at `k` of a duplicate-free list removes that
      element for good and keeps the list duplicate-free. */
  lemma RemovedAtIndex(ids: seq<string>, k: int)
    requires NoDup(ids) && 0 <= k < |ids|
    ensures ids[k] !in ids[..k] + ids[k + 1..]
    ensures NoDup(ids[..k] + ids[k + 1..])
  {
    var r := ids[..k] + ids[k + 1..];
    forall i | 0 <= i < |r| ensures r[i] != ids[k] {
      assert r[i] == ids[if i < k then i else i + 1];
    }
    forall i, j | 0 <= i < j < |r| ensures r[i] != r[j] {
      assert r[i] == ids[if i < k then i else i + 1];
      assert r[j] == ids[if j < k then j else j + 1];
    }
  }

  lemma AppendedFresh(ids: seq<string>, id: string)
    requires NoDup(ids) && id !in ids
    ensures NoDup(ids + [id])
  {
  }

  /** Toggling twice restores the list when the id was absent, and its
      contents in every case (a present id moves to the end). */
  lemma ToggleTwice(ids: seq<string>, id: string)
    requires NoDup(ids)
    ensures id !in ids ==> Toggled(Toggled(ids, id), id) == ids
    ensures multiset(Toggled(Toggled(ids, id), id)) == multiset(ids)
  {
    var r := Toggled(ids, id);
    if id !in ids {
      IndexOfAppended(ids, id);
      assert r[..|ids|] == ids && r[|ids| + 1..] == [];
    } else {
      ToggledFlips(ids, id);
      assert Toggled(r, id) == r + [id];
    }
  }

  // ---------------------------------------------------------------------
  // Streak (updateStreak)

  datatype StreakState = StreakState(streak: int, lastCompletionDate: Option<int>)

  /** Some task is due on `day` and every due task's id is in that day's list. */
  predicate DayQualifies(tasks: seq<Task>, ledger: Ledger, day: int)
  {
    var due := DueOn(tasks, day);
    |due| > 0 && forall i :: 0 <= i < |due| ==> due[i].id in CompletedOn(ledger, day)
  }

  /** The streak after `updateStreak` on `today`, given whether today qualifies. */
  function NextStreak(s: StreakState, qualifies: bool, today: int): (r: StreakState)
    ensures !qualifies || s.lastCompletionDate == Some(today) ==> r == s
    ensures qualifies && s.lastCompletionDate != Some(today) ==>
      r.lastCompletionDate == Some(today)
      && r.streak == (if s.lastCompletionDate == Some(today - 1) then s.streak + 1 else 1)
  {
    if qualifies && s.lastCompletionDate != Some(today) then
      StreakState(if s.lastCompletionDate == Some(today - 1) then s.streak + 1 else 1, Some(today))
    else s
  }

  /** Calling `updateStreak` again on the same day changes nothing. */
  lemma StreakIdempotent(s: StreakState, qualifies: bool, today: int)
    ensures NextStreak(NextStreak(s, qualifies, today), qualifies, today) == NextStreak(s, qualifies, today)
  {
  }

  /** A recorded qualifying date always carries a streak of at least one. */
  ghost predicate StreakInvariant(s: StreakState)
  {
    s.streak >= 0 && (s.lastCompletionDate.Some? ==> s.streak >= 1)
  }

  lemma StreakInvariantKept(s: StreakState, qualifies: bool, today: int)
    requires StreakInvariant(s)
    ensures StreakInvariant(NextStreak(s, qualifies, today))
    ensures qualifies ==> NextStreak(s, qualifies, today).streak >= 1
  {
  }

  /** One `updateStreak` per day over consecutive days from `start`. */
  function StreakOverDays(s: StreakState, qualifying: seq<bool>, start: int): StreakState
    decreases |qualifying|
  {
    if qualifying == [] then s
    else StreakOverDays(NextStreak(s, qualifying[0], start), qualifying[1..], start + 1)
  }

  /** A run of n qualifying days adds n to the streak if the run continues
      the last qualifying date, and starts again from n otherwise. */
  lemma {:induction false} QualifyingRun(s: StreakState, qualifying: seq<bool>, start: int)
    decreases |qualifying|
    requires |qualifying| > 0
    requires forall i :: 0 <= i < |qualifying| ==> qualifying[i]
    requires s.lastCompletionDate.None? || s.lastCompletionDate.value < start
    ensures StreakOverDays(s, qualifying, start).lastCompletionDate == Some(start + |qualifying| - 1)
    ensures StreakOverDays(s, qualifying, start).streak
         == (if s.lastCompletionDate == Some(start - 1) then s.streak else 0) + |qualifying|
  {
    var s' := NextStreak(s, true, start);
    if |qualifying| > 1 {
      QualifyingRun(s', qualifying[1..], start + 1);
    }
  }

  /** A day between two qualifying days that does not qualify, including a
      day on which nothing is due, resets the streak to one. */
  lemma GapResetsStreak(s: StreakState, day: int)
    ensures StreakOverDays(s, [true, false, true], day).streak == 1
  {
    var s1 := NextStreak(s, true, day);
    assert NextStreak(s1, false, day + 1) == s1;
    var s3 := NextStreak(s1, true, day + 2);
    assert [true, false, true][1..] == [false, true];
    assert [false, true][1..] == [true];
    assert StreakOverDays(s1, [true], day + 2) == s3;
    assert StreakOverDays(s1, [false, true], day + 1) == s3;
  }

  // ---------------------------------------------------------------------
  // Week and month progress

  /** How many tasks are due on `day`. */
  function DueCount(tasks: seq<Task>, day: int): nat
  {
    |DueOn(tasks, day)|
  }

  /** How many ids the ledger lists for `day`. */
  function DoneCount(ledger: Ledger, day: int): nat
  {
    |CompletedOn(ledger, day)|
  }

  /** Due task-days over the `n` dates from `start`. */
  function DueTotal(tasks: seq<Task>, start: int, n: nat): nat
  {
    SumRange(d => DueCount(tasks, d), start, n)
  }

  /** Ledger entries over the `n` dates from `start`, counted raw: ids of
      tasks not due that day, or deleted since, count too. */
  function DoneTotal(ledger: Ledger, start: int, n: nat): nat
  {
    SumRange(d => DoneCount(ledger, d), start, n)
  }

  /** Extending the window by one date adds that date's counts. */
  lemma TotalsStep(tasks: seq<Task>, ledger: Ledger, start: int, n: nat)
    ensures DueTotal(tasks, start, n + 1) == DueTotal(tasks, start, n) + DueCount(tasks, start + n)
    ensures DoneTotal(ledger, start, n + 1) == DoneTotal(ledger, start, n) + DoneCount(ledger, start + n)
  {
  }

  /** `totalTasks > 0 ? (completedTasks / totalTasks) * 100 : 0` in exact arithmetic. */
  function Percent(completed: nat, total: nat): real
  {
    if total > 0 then (completed as real / total as real) * 100.0 else 0.0
  }

  /** The percentage is the share of completed entries in the due total,
      0 when nothing is due, and within 100 exactly when the ledger does
      not over-report. */
  lemma PercentMeaning(completed: nat, total: nat)
    ensures total == 0 ==> Percent(completed, total) == 0.0
    ensures total > 0 ==> Percent(completed, total) * (total as real) == (completed as real) * 100.0
    ensures Percent(completed, total) >= 0.0
    ensures completed <= total ==> Percent(completed, total) <= 100.0
    ensures 0 < total == completed ==> Percent(completed, total) == 100.0
    ensures completed > total > 0 ==> Percent(completed, total) > 100.0
  {
  }

  /** When no day in the window has more ledger entries than due tasks, the
      progress is at most 100%, and exactly 100% when every day has as many
      entries as due tasks (and something is due). */
  lemma DoneWithinDue(tasks: seq<Task>, ledger: Ledger, start: int, n: nat)
    requires forall d :: start <= d < start + n ==> DoneCount(ledger, d) <= DueCount(tasks, d)
    ensures DoneTotal(ledger, start, n) <= DueTotal(tasks, start, n)
    ensures Percent(DoneTotal(ledger, start, n), DueTotal(tasks, start, n)) <= 100.0
    ensures (forall d :: start <= d < start + n ==> DoneCount(ledger, d) == DueCount(tasks, d))
            ==> DoneTotal(ledger, start, n) == DueTotal(tasks, start, n)
  {
    SumRangeMonotone(d => DoneCount(ledger, d), d => DueCount(tasks, d), start, n);
    PercentMeaning(DoneTotal(ledger, start, n), DueTotal(tasks, start, n));
  }

  /** Progress counts raw ledger entries: a day with more entries than due
      tasks, and none with fewer, pushes the window past 100%. */
  lemma ExtraEntriesExceedDue(tasks: seq<Task>, ledger: Ledger, start: int, n: nat, extra: int)
    requires forall d :: start <= d < start + n ==> DoneCount(ledger, d) >= DueCount(tasks, d)
    requires start <= extra < start + n && DoneCount(ledger, extra) > DueCount(tasks, extra)
    ensures DoneTotal(ledger, start, n) > DueTotal(tasks, start, n)
    ensures DueTotal(tasks, start, n) > 0 ==> Percent(DoneTotal(ledger, start, n), DueTotal(tasks, start, n)) > 100.0
  {
    SumRangeStrict(d => DoneCount(ledger, d), d => DueCount(tasks, d), start, n, extra);
    PercentMeaning(DoneTotal(ledger, start, n), DueTotal(tasks, start, n));
  }

  /** `startOfWeek`: the Sunday on or before `today`. */
  function WeekStart(today: int): (d: int)
    ensures Weekday(d) == 0 && today - 6 <= d <= today
  {
    today - Weekday(today)
  }

  // ---------------------------------------------------------------------
  // Reminder selection (checkReminders)

  /** The task fires at this minute: its reminder time is the current
      "HH:MM", it is due today and it is not completed today. */
  predicate ShouldRemind(task: Task, ledger: Ledger, today: int, minute: MinuteOfDay)
  {
    task.reminderTime == ClockText(minute) && IsDue(task, today) && !IsTaskCompleted(ledger, today, task.id)
  }

  function RemindersDue(tasks: seq<Task>, ledger: Ledger, today: int, minute: MinuteOfDay): seq<Task>
  {
    Filter(tasks, t => ShouldRemind(t, ledger, today, minute))
  }

  /** The notifications of one scan: the tasks that should fire, each once,
      in list order. */
  lemma RemindersDueMembers(tasks: seq<Task>, ledger: Ledger, today: int, minute: MinuteOfDay)
    ensures forall t :: t in RemindersDue(tasks, ledger, today, minute) <==> t in tasks && ShouldRemind(t, ledger, today, minute)
    ensures IsSubsequence(RemindersDue(tasks, ledger, today, minute), tasks)
  {
    FilterMembers(tasks, t => ShouldRemind(t, ledger, today, minute));
    FilterIsSubsequence(tasks, t => ShouldRemind(t, ledger, today, minute));
  }

  /** A task with a valid reminder time fires at one minute of the day only. */
  lemma RemindsOnlyAtItsMinute(task: Task, ledger: Ledger, today: int, minute: MinuteOfDay)
    requires IsClockText(task.reminderTime)
    requires ShouldRemind(task, ledger, today, minute)
    ensures minute == ClockMinutes(task.reminderTime)
  {
  }

  // ---------------------------------------------------------------------
  // Task list view (renderTasks)

  /** The category, status and due-today filters of `renderTasks`. */
  predicate PassesFilters(task: Task, ledger: Ledger, today: int, categoryFilter: string, statusFilter: string)
  {
    var isCompleted := IsTaskCompleted(ledger, today, task.id);
    && (categoryFilter == "all" || task.category == categoryFilter)
    && !(statusFilter == "completed" && !isCompleted)
    && !(statusFilter == "pending" && isCompleted)
    && IsDue(task, today)
  }

  function VisibleTasks(tasks: seq<Task>, ledger: Ledger, today: int, categoryFilter: string, statusFilter: string)
    : seq<Task>
  {
    Filter(tasks, t => PassesFilters(t, ledger, today, categoryFilter, statusFilter))
  }

  /** The shown tasks are exactly those passing the filters, in list order. */
  lemma VisibleTasksMembers(tasks: seq<Task>, ledger: Ledger, today: int, categoryFilter: string, statusFilter: string)
    ensures forall t :: t in VisibleTasks(tasks, ledger, today, categoryFilter, statusFilter)
              <==> t in tasks && PassesFilters(t, ledger, today, categoryFilter, statusFilter)
    ensures IsSubsequence(VisibleTasks(tasks, ledger, today, categoryFilter, statusFilter), tasks)
  {
    FilterMembers(tasks, t => PassesFilters(t, ledger, today, categoryFilter, statusFilter));
    FilterIsSubsequence(tasks, t => PassesFilters(t, ledger, today, categoryFilter, statusFilter));
  }

  /** The sort comparator: incomplete tasks first, then by reminder time
      (`localeCompare`, modelled as code-unit order on the "HH:MM" text). */
  function ShownBefore(ledger: Ledger, today: int): (Task, Task) -> bool
  {
    (a: Task, b: Task) =>
      var aCompleted, bCompleted := IsTaskCompleted(ledger, today, a.id), IsTaskCompleted(ledger, today, b.id);
      if aCompleted != bCompleted then !aCompleted else StrLeq(a.reminderTime, b.reminderTime)
  }

  lemma ShownBeforeIsTotalPreorder(ledger: Ledger, today: int)
    ensures TotalPreorder(ShownBefore(ledger, today))
  {
    var le := ShownBefore(ledger, today);
    forall a: Task, b: Task ensures le(a, b) || le(b, a) {
      StrLeqTotal(a.reminderTime, b.reminderTime);
    }
    forall a: Task, b: Task, c: Task | le(a, b) && le(b, c) ensures le(a, c) {
      if IsTaskCompleted(ledger, today, a.id) == IsTaskCompleted(ledger, today, c.id) {
        StrLeqTransitive(a.reminderTime, b.reminderTime, c.reminderTime);
      }
    }
  }

  /** The tasks `renderTasks` shows, in the order it shows them. */
  function RenderedTasks(tasks: seq<Task>, ledger: Ledger, today: int, categoryFilter: string, statusFilter: string)
    : seq<Task>
  {
    SortBy(VisibleTasks(tasks, ledger, today, categoryFilter, statusFilter), ShownBefore(ledger, today))
  }

  /** The view is a reordering of the tasks passing the filters; incomplete
      tasks come first, and each group is ordered by reminder time. */
  lemma RenderedTasksOrder(tasks: seq<Task>, ledger: Ledger, today: int, categoryFilter: string, statusFilter: string)
    ensures multiset(RenderedTasks(tasks, ledger, today, categoryFilter, statusFilter))
         == multiset(VisibleTasks(tasks, ledger, today, categoryFilter, statusFilter))
    ensures var r := RenderedTasks(tasks, ledger, today, categoryFilter, statusFilter);
      forall i, j :: 0 <= i < j < |r| ==>
        (IsTaskCompleted(ledger, today, r[i].id) ==> IsTaskCompleted(ledger, today, r[j].id))
        && (IsTaskCompleted(ledger, today, r[i].id) == IsTaskCompleted(ledger, today, r[j].id)
            ==> StrLeq(r[i].reminderTime, r[j].reminderTime))
  {
    ShownBeforeIsTotalPreorder(ledger, today);
    SortBySorted(VisibleTasks(tasks, ledger, today, categoryFilter, statusFilter), ShownBefore(ledger, today));
  }

  // ---------------------------------------------------------------------
  // Import and export

  /** The fields of an exported or imported JSON backup; `None` stands for
      a missing or falsy field. */
  datatype BackupRecord = BackupRecord(
    tasks: Option<seq<Task>>,
    completedTasks: Option<Ledger>,
    streak: Option<int>,
    lastCompletionDate: Option<int>)

  datatype Snapshot = Snapshot(
    tasks: seq<Task>,
    completedTasks: Ledger,
    streak: int,
    lastCompletionDate: Option<int>)

  /** `data.tasks || []`, `data.completedTasks || {}`, `data.streak || 0`,
      `data.lastCompletionDate || ''`. */
  function Restored(data: BackupRecord): (s: Snapshot)
    ensures data.tasks.None? ==> s.tasks == []
    ensures data.completedTasks.None? ==> s.completedTasks == map[]
    ensures data.streak.None? ==> s.streak == 0
    ensures data.tasks.Some? ==> s.tasks == data.tasks.value
    ensures data.completedTasks.Some? ==> s.completedTasks == data.completedTasks.value
    ensures data.streak.Some? ==> s.streak == data.streak.value
    ensures s.lastCompletionDate == data.lastCompletionDate
  {
    Snapshot(
      if data.tasks.Some? then data.tasks.value else [],
      if data.completedTasks.Some? then data.completedTasks.value else map[],
      if data.streak.Some? then data.streak.value else 0,
      data.lastCompletionDate)
  }

  /** `exportData`'s record (the export date is not read back). */
  function Exported(s: Snapshot): BackupRecord
  {
    BackupRecord(Some(s.tasks), Some(s.completedTasks), Some(s.streak), s.lastCompletionDate)
  }

  /** Importing an export restores every field. */
  lemma ExportImportRoundTrip(s: Snapshot)
    ensures Restored(Exported(s)) == s
  {
  }

  // ---------------------------------------------------------------------
  // The app object

  /** The edited fields of updateTask over the existing record (`...task`). */
  function Edited(task: Task, title: string, category: string, reminderTime: string,
                  repeatFrequency: StoredFrequency, notes: string, now: int): (r: Task)
    ensures r.id == task.id && r.created == task.created && r.active == task.active
    ensures r.title == title && r.category == category && r.reminderTime == reminderTime
    ensures r.repeatFrequency == repeatFrequency && r.notes == notes && r.updated == Some(now)
  {
    task.(title := title, category := category, reminderTime := reminderTime,
          repeatFrequency := repeatFrequency, notes := notes, updated := Some(now))
  }

  /** `this.tasks.filter(t => t.id !== taskId)` */
  function WithoutTask(tasks: seq<Task>, taskId: string): (r: seq<Task>)
    ensures forall t :: t in r <==> t in tasks && t.id != taskId
    ensures IsSubsequence(r, tasks)
  {
    FilterMembers(tasks, (t: Task) => t.id != taskId);
    FilterIsSubsequence(tasks, (t: Task) => t.id != taskId);
    Filter(tasks, (t: Task) => t.id != taskId)
  }
}
