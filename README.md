# OneFocus in Dafny

This project models the logic of OneFocus, a productivity app for macOS and iOS: a focus timer, task lists,
quick notes, a clipboard history, a session history, analytics and settings. Everything it models
happens in memory. The screens are not modelled.

How the pieces are represented:

- **Clock.** Dates are whole seconds on one integer clock. A day is a block of 86400 seconds.
  `Date()` inside an operation becomes a `now` parameter, and `UUID()` becomes an `id` parameter.
- **Key-value store.** `UserDefaults.standard` is a `map` from keys to typed values (`Store`).
- **Encoded lists.** JSON-encoded lists are stored as the list they encode. Bytes that no decoder
  accepts are a separate `Garbage` value.
- **Value types.** Swift structs with `mutating` methods (`Task`, `FocusSession`) are datatypes.
  Each mutating method becomes a function from the old value to the new one.
- **Objects.** Objects whose methods update their fields are classes. The focus timer manager, the
  timer service, the view models, the history, analytics and persistence services, the settings and
  the authentication manager are all classes.
- **Class contracts.** Each class method's `ensures` ties its new state to a transition function.
  Lemmas state the source's promises about those transition functions.

Modules, by source file:

- `FocusTimer` is `FocusTimerManager`: the focus, short-break and long-break state machine with
  wall-clock catch-up.
- `Countdown` is `TimerService`.
- `Tasks`, `Sessions`, `History`, `Notes` and `ClipboardItems` are the models and their array
  extensions.
- `TaskList` is `TasksViewModel`, `HistoryLog` is `HistoryManager`, and `Analytics` is
  `AnalyticsService`.
- `Persistence` is `PersistenceService`.
- `QuickNotes` is `QuickNotesViewModel`, quick capture, the note search and the quick-note hotkey
  settings.
- `Clipboard` is `ClipboardHistoryViewModel`.
- `Settings` is `UserSettings` and its compatibility extension. `WorkingCopy` is
  `SettingsWorkingCopy`.
- `Auth` is `AuthManager`, and `SignIn` is the sign-in screen's logic.
- `FocusScreen` is `FocusViewModel`.
- `Stats` is the daily-goal text, and `Constants` is the timer defaults and `Color(hex:)`.

Shared helpers:

- `Seqs` holds Swift's order-preserving list operations: `filter`, `removeAll`, `firstIndex` and
  replace-or-append.
- `Sorting` is a stable insertion sort standing for `sorted(by:)`.
- `Text` renders and parses decimals, trims whitespace, and counts words.
- `Calendar` splits instants into days.

## Model

| member | source | states |
|---|---|---|
| FocusTimer.InitialSpec | OneFocus/Manager/FocusTimerManager.swift:149-164 | a new manager is idle on a focus session, with the full focus duration remaining and no completed sessions |
| FocusTimer.StartSpec | OneFocus/Manager/FocusTimerManager.swift:80-101 | start does nothing while running; otherwise it runs, reloads the full duration when either time is used up, and stamps the last tick with `now`, so a pause is never debited |
| FocusTimer.PauseResetSwitchSpec | OneFocus/Manager/FocusTimerManager.swift:103-127 | pause acts only while running; reset goes idle with the full time and no last tick; switching goes idle on the new session type with its full duration; none of them changes the completion count |
| FocusTimer.CompletionSpec | OneFocus/Manager/FocusTimerManager.swift:199-224 | completion requests one notification and counts a focus session once; with `autoStartBreaks` it starts a long break exactly when the count is a multiple of the cadence, otherwise a short break; with `autoStartFocus` a break is followed by focus; otherwise it ends idle with no last tick and the same session type |
| FocusTimer.CatchUpSpec | OneFocus/Manager/FocusTimerManager.swift:166-182 | catch-up with no last tick only records `now`; otherwise it debits the whole seconds elapsed (nothing when none), and completes when the time reaches zero |
| FocusTimer.ConfigureSpec | OneFocus/Manager/FocusTimerManager.swift:76-78 | when idle the remaining time is reset to the new duration; otherwise it is clamped to `min(remaining, new duration)` |
| FocusTimer.MenuBarTitleSpec | OneFocus/Manager/FocusTimerManager.swift:69-74 | the title is "OneFocus" exactly when idle, and otherwise the clock text |
| FocusTimer.ClockTextSpec | OneFocus/Manager/FocusTimerManager.swift:58-62 | the clock text reads back as the whole minutes and the seconds left |
| FocusTimer.TickDebitsExtraSecond | OneFocus/Manager/FocusTimerManager.swift:184-197 | a tick that does not finish the session debits the elapsed seconds and then one more |
| FocusTimer.TickDebitsTwoSecondsPerSecond | OneFocus/Manager/FocusTimerManager.swift:184-197 | as written, a tick one second after the last one takes 1500 down to 1498 |
| FocusTimer.TickCompletesTwice | OneFocus/Manager/FocusTimerManager.swift:184-197 | as written, when the catch-up inside a tick runs the session out and nothing auto-starts, completion runs twice: two notifications, and a focus session counted twice |
| FocusTimer.TickAutoStartLosesSecond | OneFocus/Manager/FocusTimerManager.swift:184-197 | as written, when a break auto-starts inside a tick, the new break has already lost one second |
| FocusTimer.ResumeDoesNotDebitPause | OneFocus/Manager/FocusTimerManager.swift:80-101 | resuming a paused session keeps its remaining time and re-stamps the last tick |
| FocusTimer.SceneActiveRestartsSession | OneFocus/Manager/FocusTimerManager.swift:133-145 | becoming active after the session ran out in the background, with nothing set to auto-start, completes it once (one notification) and restarts the same session type at full duration |
| FocusTimer.SceneBackgroundNoOp | OneFocus/Manager/FocusTimerManager.swift:133-145 | going inactive or to the background, or any scene change while not running, leaves the state unchanged |
| FocusTimer.StepPreserves | OneFocus/Manager/FocusTimerManager.swift:80-224 | every operation keeps `0 <= timeRemaining <= totalTime`, a timer installed exactly while running and a last tick kept exactly while not idle; the completion count grows by at most one per operation and two per tick |
| FocusTimer.StartPreserves | OneFocus/Manager/FocusTimerManager.swift:80-101 | start keeps the time bounds and the timer invariant, and counts no completion |
| FocusTimer.CompletionPreserves | OneFocus/Manager/FocusTimerManager.swift:199-224 | completion keeps the invariant, counts at most one session, and leaves the remaining time alone unless it starts a new session |
| FocusTimer.CatchUpPreserves | OneFocus/Manager/FocusTimerManager.swift:166-182 | catch-up keeps the invariant, counts at most one session, and leaves zero time when it stops the timer |
| FocusTimer.TickPreserves | OneFocus/Manager/FocusTimerManager.swift:184-197 | a tick keeps the invariant and counts at most two sessions |
| FocusTimer.ScenePreserves | OneFocus/Manager/FocusTimerManager.swift:133-145 | a scene change keeps the invariant and counts at most one session |
| FocusTimer.RunPreserves | OneFocus/Manager/FocusTimerManager.swift:80-224 | any sequence of operations keeps the same invariant |
| FocusTimer.CorrectedTickTracksClock | OneFocus/Manager/FocusTimerManager.swift:184-197 | a tick that debits only the elapsed seconds counts down one second per second (1500 to 1499) |
| FocusTimer.CorrectedTickCompletesOnce | OneFocus/Manager/FocusTimerManager.swift:184-197 | with that tick, a session that runs out completes exactly once |
| FocusTimer.FocusTimerManager.constructor | OneFocus/Manager/FocusTimerManager.swift:45-48 | the new manager is in the initial state for the settings it holds |
| FocusTimer.FocusTimerManager.SetupInitialTime | OneFocus/Manager/FocusTimerManager.swift:149-164 | the new state is the initial-time transition of the old one |
| FocusTimer.FocusTimerManager.ConfigureForUserSettings | OneFocus/Manager/FocusTimerManager.swift:76-78 | the new state is the configure transition |
| FocusTimer.FocusTimerManager.Start | OneFocus/Manager/FocusTimerManager.swift:80-101 | the new state is the start transition |
| FocusTimer.FocusTimerManager.Pause | OneFocus/Manager/FocusTimerManager.swift:103-109 | the new state is the pause transition |
| FocusTimer.FocusTimerManager.Reset | OneFocus/Manager/FocusTimerManager.swift:111-117 | the new state is the reset transition |
| FocusTimer.FocusTimerManager.SwitchSession | OneFocus/Manager/FocusTimerManager.swift:119-127 | the new state is the switch transition |
| FocusTimer.FocusTimerManager.HandleScenePhase | OneFocus/Manager/FocusTimerManager.swift:133-145 | the new state is the scene-phase transition |
| FocusTimer.FocusTimerManager.CatchUpIfNeeded | OneFocus/Manager/FocusTimerManager.swift:166-182 | the new state is the catch-up transition |
| FocusTimer.FocusTimerManager.Tick | OneFocus/Manager/FocusTimerManager.swift:184-197 | the new state is the tick transition, as written |
| FocusTimer.FocusTimerManager.TimerCompleted | OneFocus/Manager/FocusTimerManager.swift:199-224 | the new state is the completion transition |
| FocusTimer.FocusTimerManager.FormattedTime | OneFocus/Manager/FocusTimerManager.swift:58-62 | the clock text of the current state |
| FocusTimer.FocusTimerManager.MenuBarTitle | OneFocus/Manager/FocusTimerManager.swift:69-74 | "OneFocus" exactly when idle, otherwise the formatted time |
| Countdown.StartSpec | OneFocus/Services/TimerService.swift:27-40 | start always stops first, then runs the full duration from `now`, unpaused, with no paused time |
| Countdown.ControlsSpec | OneFocus/Services/TimerService.swift:100-114 | pause and resume act exactly when `canPause` and `canResume` hold; a pause records the remaining time; `canStop` is the negation of `canStart` |
| Countdown.ResumeRestoresPausedTime | OneFocus/Services/TimerService.swift:51-60 | a tick at the resume instant leaves exactly the paused time, and a tick `d` seconds later leaves `d` seconds less |
| Countdown.TickSpec | OneFocus/Services/TimerService.swift:74-83 | a tick leaves the total minus the seconds since the start, with elapsed plus remaining equal to the total; reaching zero stops the countdown, with every time zeroed, and counts one completion |
| Countdown.TickMonotone | OneFocus/Services/TimerService.swift:74-83 | with a clock that does not go backwards, the remaining time never grows between ticks |
| Countdown.StepPreserves | OneFocus/Services/TimerService.swift:27-98 | every operation keeps a start instant exactly while running, a pause only while running, and a timer scheduled exactly while running unpaused; the completion count never decreases |
| Countdown.TimerService.constructor | OneFocus/Services/TimerService.swift:14-24 | the service starts stopped, with every time zero |
| Countdown.TimerService.Start | OneFocus/Services/TimerService.swift:27-40 | the new state is the start transition |
| Countdown.TimerService.Pause | OneFocus/Services/TimerService.swift:42-49 | the new state is the pause transition |
| Countdown.TimerService.Resume | OneFocus/Services/TimerService.swift:51-60 | the new state is the resume transition |
| Countdown.TimerService.Stop | OneFocus/Services/TimerService.swift:62-71 | the new state is the stopped state |
| Countdown.TimerService.Tick | OneFocus/Services/TimerService.swift:74-83 | the new state is the tick transition |
| Countdown.TimerService.Complete | OneFocus/Services/TimerService.swift:85-88 | the new state is stopped and completed |
| Tasks.ToggledSpec | OneFocus/Models/Task.swift:106-109 | toggling flips completion, sets a completion date exactly when the task becomes completed, and leaves every other field alone |
| Tasks.ToggleTwice | OneFocus/Models/Task.swift:106-109 | toggling twice restores the flag; an open, undated task comes back unchanged |
| Tasks.CompleteUncompleteSpec | OneFocus/Models/Task.swift:111-119 | complete and uncomplete set both completion fields consistently, are idempotent, touch no other field, and agree with toggling |
| Tasks.OverdueNeedsOpenDueTask | OneFocus/Models/Task.swift:72-75 | a completed task, or one with no due date, is never overdue |
| Tasks.CompletedIncompletePartition | OneFocus/Models/Task.swift:126-132 | `completed` and `incomplete` split the list: the counts add up, the multisets add up, and each keeps the order |
| Tasks.DueAndOverdueAreIncomplete | OneFocus/Models/Task.swift:134-140 | `dueToday` and `overdue` are subsequences of `incomplete` |
| Tasks.SortedByPrioritySpec | OneFocus/Models/Task.swift:142-149 | sorting by priority is a permutation with high before medium before low |
| Tasks.SortedByDateSpec | OneFocus/Models/Task.swift:151-153 | sorting by date is a permutation with creation dates non-increasing |
| Sorting.SortBySpec | OneFocus/Models/Task.swift:142-153 | the sort is a permutation whose keys never decrease |
| Sorting.InsertPermutes | OneFocus/Models/Task.swift:142-153 | inserting one element adds exactly that element to the multiset |
| Sorting.InsertSorted | OneFocus/Models/Task.swift:142-153 | inserting into a sorted list keeps it sorted |
| TaskList.AddTaskSpec | OneFocus/ViewModels/TasksViewModel.swift:23-26 | adding keeps every task and adds exactly the new one; a new identifier is found at the end and deleting it restores the old list; a duplicate identifier stays shadowed by the earlier task |
| TaskList.DeleteTaskSpec | OneFocus/ViewModels/TasksViewModel.swift:28-31 | deleting removes every task with the id and keeps the rest in order |
| TaskList.UpdateTaskSpec | OneFocus/ViewModels/TasksViewModel.swift:33-38 | updating replaces only the first task with the id and keeps the length; an unknown id changes nothing |
| TaskList.ToggleTaskCompletionSpec | OneFocus/ViewModels/TasksViewModel.swift:40-45 | only the first task with the id has its completion toggled; every other task is unchanged |
| TaskList.TasksViewModel.constructor | OneFocus/ViewModels/TasksViewModel.swift:18-20 | starts with no tasks, since loading does nothing |
| TaskList.TasksViewModel.AddTask | OneFocus/ViewModels/TasksViewModel.swift:23-26 | the list becomes the old list plus the task |
| TaskList.TasksViewModel.DeleteTask | OneFocus/ViewModels/TasksViewModel.swift:28-31 | the list loses every task with the id |
| TaskList.TasksViewModel.UpdateTask | OneFocus/ViewModels/TasksViewModel.swift:33-38 | the first task with the id is replaced |
| TaskList.TasksViewModel.ToggleTaskCompletion | OneFocus/ViewModels/TasksViewModel.swift:40-45 | the first task with the id is toggled |
| Sessions.LifecycleSpec | OneFocus/Models/FocusSession.swift:132-143 | complete makes a session completed and inactive; end makes it inactive and keeps `wasCompleted`; associating changes only the task link |
| Sessions.DecomposeDuration | OneFocus/Models/FocusSession.swift:107-119 | a duration is exactly `h*3600 + m*60 + s`, with `m` and `s` below 60 |
| Sessions.FormattedDurationCases | OneFocus/Models/FocusSession.swift:107-119 | the text is "Xh Ym" from one hour up, "Xm Ys" from one minute up, and "Xs" otherwise |
| Sessions.CompletionPercentageBounds | OneFocus/Models/FocusSession.swift:126-129 | the percentage is 0 for a non-positive duration and never above 1; it is 1 once the actual time reaches the planned time, and otherwise the exact ratio |
| Sessions.ActiveSpec | OneFocus/Models/FocusSession.swift:212-214 | `active` is an active session of the list, and there is none exactly when no session is active |
| Sessions.TotalsSpec | OneFocus/Models/FocusSession.swift:216-224 | the focus total counts completed focus sessions only, the break total counts completed breaks only, and together they are the time of all completed sessions |
| Sessions.SortedByDateSpec | OneFocus/Models/FocusSession.swift:236-238 | a permutation with start times non-increasing |
| Sessions.FormattedPlannedDurationSpec | OneFocus/Models/FocusSession.swift:121-124 | the text ends in " min"; for a non-negative duration its digits read back as the whole minutes; below minus one minute it is a minus sign and the minutes truncated toward zero; under a minute either way it is "0 min" |
| Sessions.SessionWindowsSpec | OneFocus/Models/FocusSession.swift:226-234 | today's sessions are exactly those started on the day of `now`, this week's exactly those started at most seven days before `now`, both in list order, and today's are a subsequence of this week's |
| History.FromSessionRoundTrip | OneFocus/Models/HistoryItem.swift:82-93 | an item built from a session refers back to it; it is a focus item exactly for focus sessions; its kind, completion flag and duration read back from the item |
| History.FromTaskSpec | OneFocus/Models/HistoryItem.swift:69-80 | an item built from a task is a task item that refers back to it, has no duration, is dated by the completion date, and records the priority's raw value |
| History.PriorityRawInjective | OneFocus/Models/Task.swift:22-25 | the recorded raw value identifies the priority |
| History.FormattedDurationSpec | OneFocus/Models/HistoryItem.swift:117-127 | the text is absent exactly when there is no duration; otherwise it is "Xh Ym" from one hour up and "Ym" below, with seconds dropped |
| History.TypeFiltersPartition | OneFocus/Models/HistoryItem.swift:150-160 | the three type filters split the list |
| History.SortedByDateSpec | OneFocus/Models/HistoryItem.swift:176-178 | a permutation with dates non-increasing |
| History.GroupedByDateSpec | OneFocus/Models/HistoryItem.swift:180-185 | every item is in the group of its own start of day and in no other; groups are non-empty and keep the list order |
| History.TotalFocusTimeSpec | OneFocus/Models/HistoryItem.swift:187-189 | the total adds the durations of focus-session items only, skipping missing ones |
| Calendar.StartOfDay | OneFocus/Models/HistoryItem.swift:180-185 | the start of a day lies on a day boundary, at or before the instant and less than a day before it |
| Calendar.StartOfDaySameDay | OneFocus/Models/HistoryItem.swift:180-185 | two instants have the same start of day exactly when they fall on the same day |
| HistoryLog.SaveLoadRoundTrip | OneFocus/Manager/HistoryManager.swift:69-90 | a successful save then load gives the list back; a failed save keeps the old file; a missing or corrupt file loads as empty |
| HistoryLog.RemoveItemSpec | OneFocus/Manager/HistoryManager.swift:50-53 | removing drops every entry with the id and keeps the rest in order |
| HistoryLog.HistoryManager.constructor | OneFocus/Manager/HistoryManager.swift:23-25 | the list is what loading the file gives |
| HistoryLog.HistoryManager.AddItem | OneFocus/Manager/HistoryManager.swift:30-33 | appends the item, then saves |
| HistoryLog.HistoryManager.AddCompletedTask | OneFocus/Manager/HistoryManager.swift:36-39 | appends the item built from the task, then saves |
| HistoryLog.HistoryManager.AddCompletedSession | OneFocus/Manager/HistoryManager.swift:42-45 | appends the item built from the session, then saves |
| HistoryLog.HistoryManager.RemoveItem | OneFocus/Manager/HistoryManager.swift:50-53 | removes every item with the id, then saves |
| HistoryLog.HistoryManager.ClearAllHistory | OneFocus/Manager/HistoryManager.swift:56-59 | empties the list, then saves |
| HistoryLog.HistoryManager.SaveHistory | OneFocus/Manager/HistoryManager.swift:69-76 | the file holds the list when writable and is unchanged otherwise; the list is untouched |
| HistoryLog.HistoryManager.LoadHistory | OneFocus/Manager/HistoryManager.swift:79-90 | a decodable file replaces the list, and any failure keeps it |
| Analytics.RawValueRoundTrip | OneFocus/Services/AnalyticsService.swift:403-416 | every event type decodes from its raw value |
| Analytics.EventsInPeriodSpec | OneFocus/Services/AnalyticsService.swift:334-359 | all time gives every event; any other period gives, in order, exactly the events at or after its start; today's events are among the week's |
| Analytics.CountsSpec | OneFocus/Services/AnalyticsService.swift:182-218 | sessions plus completed tasks never exceed the events in the period; the rate is 0 with no started sessions and never negative |
| Analytics.TrackEventCounts | OneFocus/Services/AnalyticsService.swift:29-32 | tracking an event adds one to the all-time session count exactly when it is a completed focus session |
| Analytics.ExportAppends | OneFocus/Services/AnalyticsService.swift:377-386 | exporting one more event appends exactly its row |
| Analytics.ExportLineCount | OneFocus/Services/AnalyticsService.swift:377-386 | the export starts with the header and has exactly one line per event plus the header line |
| Analytics.ExportStep | OneFocus/Services/AnalyticsService.swift:380-384 | one loop step appends the event's row and a line break |
| Analytics.RowsLineCount | OneFocus/Services/AnalyticsService.swift:380-384 | rows without embedded line breaks contribute one line break each |
| Analytics.MaxOf | OneFocus/Services/AnalyticsService.swift:246-247 | the newest session day is present and no day is later |
| Analytics.MinOf | OneFocus/Services/AnalyticsService.swift:270-271 | the oldest session day is present and no day is earlier |
| Analytics.CompletedDaysNonEmpty | OneFocus/Services/AnalyticsService.swift:240-247 | there is a session day exactly when some focus session was completed |
| Analytics.StreakFromSpec | OneFocus/Services/AnalyticsService.swift:249-259 | the acceptance rule as written: the first day is the cursor or the day before, each later day is one or two days before the previous, and the scan stops at the first day that breaks this |
| Analytics.StreakFrom | OneFocus/Services/AnalyticsService.swift:249-259 | the streak never exceeds the number of days scanned |
| Analytics.StreakStep | OneFocus/Services/AnalyticsService.swift:249-259 | one loop step: an accepted day adds one and moves the cursor to the day before it, and any other day stops the count |
| Analytics.CurrentStreakSpec | OneFocus/Services/AnalyticsService.swift:240-262 | the streak is at most the number of distinct days, and positive exactly when the latest session day is today or yesterday |
| Analytics.CurrentStreakSkipsGap | OneFocus/Services/AnalyticsService.swift:249-259 | as written, sessions today and two days ago but not yesterday give a streak of 2 |
| Analytics.ConsecutiveFromSpec | OneFocus/Services/AnalyticsService.swift:249-259 | the consecutive count is the length of the run of days, each one day before the previous |
| Analytics.CorrectedStreakSpec | OneFocus/Services/AnalyticsService.swift:240-262 | the corrected streak is positive exactly when the latest day is today or yesterday, and is then the run of consecutive days ending at the latest day; the day before the run is absent; the count never exceeds the streak as written |
| Analytics.CorrectedRun | OneFocus/Services/AnalyticsService.swift:249-259 | on strictly descending days, the corrected count from the newest day covers exactly a run of consecutive days present, and the day before the run is absent |
| Analytics.ConsecutiveAtMostStreak | OneFocus/Services/AnalyticsService.swift:249-259 | counting consecutive days never gives more than the rule as written |
| Analytics.CorrectedCurrentStreakSpec | OneFocus/Services/AnalyticsService.swift:240-262 | both streaks of the events are the streaks of their sorted session days, and the corrected one is never larger |
| Analytics.MaxRunSpec | OneFocus/Services/AnalyticsService.swift:274-287 | on ascending days, the longest run found by the loop is present as consecutive days, and no run present is longer |
| Analytics.RunEndingAt | OneFocus/Services/AnalyticsService.swift:276-285 | the run ending at a position is at least one day and reaches back no further than the list |
| Analytics.RunIsConsecutive | OneFocus/Services/AnalyticsService.swift:276-285 | the days of that run step by exactly one day |
| Analytics.RunCovers | OneFocus/Services/AnalyticsService.swift:276-285 | on ascending days, a run of `k` consecutive days present ends at a position whose run is at least `k` |
| Analytics.MaxRunBounds | OneFocus/Services/AnalyticsService.swift:274-287 | the loop's maximum is reached at some position and bounds the run at every position |
| Analytics.LongestStreakSpec | OneFocus/Services/AnalyticsService.swift:264-288 | the longest streak is 0 exactly without completed sessions, is at most the number of distinct days, is the length of a run of consecutive days present, and no such run is longer |
| Analytics.AnalyticsService.constructor | OneFocus/Services/AnalyticsService.swift:24-26 | starts with no events |
| Analytics.AnalyticsService.TrackEvent | OneFocus/Services/AnalyticsService.swift:29-32 | appends the event |
| Analytics.AnalyticsService.ClearEvents | OneFocus/Services/AnalyticsService.swift:373-375 | empties the list |
| Analytics.AnalyticsService.GetTotalSessions | OneFocus/Services/AnalyticsService.swift:182-186 | the number of completed sessions in the period |
| Analytics.AnalyticsService.GetCompletedTasks | OneFocus/Services/AnalyticsService.swift:188-192 | the number of completed tasks in the period |
| Analytics.AnalyticsService.GetSessionCompletionRate | OneFocus/Services/AnalyticsService.swift:211-218 | completed over started sessions in the period, 0 with none started |
| Analytics.AnalyticsService.GetCurrentStreak | OneFocus/Services/AnalyticsService.swift:240-262 | the loop computes the current streak as written |
| Analytics.AnalyticsService.GetLongestStreak | OneFocus/Services/AnalyticsService.swift:264-288 | the loop computes the longest run of consecutive days |
| Analytics.AnalyticsService.ExportEvents | OneFocus/Services/AnalyticsService.swift:377-386 | the loop builds the header and one row per event, in order |
| Seqs.UpsertSpec | OneFocus/Services/PersistenceService.swift:40-48 | replace-or-append keeps the length when the id is present and adds one otherwise; afterwards the value sits at the id's first position |
| Seqs.RemoveKeySpec | OneFocus/Services/PersistenceService.swift:50-60 | removing by key keeps exactly the elements with other keys, in order |
| Seqs.FilterPartition | OneFocus/Models/Task.swift:126-132 | a predicate and its negation split a list by count and by multiset |
| Seqs.FirstIndex | OneFocus/ViewModels/TasksViewModel.swift:33-45 | `firstIndex(where:)` gives the first position with the key, or none when no element has it |
| Seqs.ReplaceFirstSpec | OneFocus/ViewModels/TasksViewModel.swift:33-38 | replacing by key changes exactly the first element with the key, and nothing when there is none |
| Seqs.UpdateFirstSpec | OneFocus/ViewModels/TasksViewModel.swift:40-45 | updating by key changes exactly the first element with the key, and nothing when there is none |
| Seqs.FirstWhere | OneFocus/Models/FocusSession.swift:212-214 | `first(where:)` gives the first element satisfying the predicate, and none exactly when no element does |
| Seqs.Prefix | OneFocus/Views/Clipboard/ClipboardHistoryView.swift:465 | `prefix(n)` keeps the first `min(n, length)` elements |
| Persistence.StoreRoundTrip | OneFocus/Services/PersistenceService.swift:26-118 | each list loads back as saved; saving one list leaves the other two as they were; a missing key loads as empty |
| Persistence.SaveTaskSpec | OneFocus/Services/PersistenceService.swift:40-48 | saving a task replaces the first one with its id, or appends it |
| Persistence.SaveFocusSessionSpec | OneFocus/Services/PersistenceService.swift:77-85 | saving a session follows the same rule |
| Persistence.SaveHistoryItemSpec | OneFocus/Services/PersistenceService.swift:120-128 | saving a history item follows the same rule |
| Persistence.DeleteTaskSpec | OneFocus/Services/PersistenceService.swift:50-60 | deleting removes every stored task with the id and keeps the rest in order |
| Persistence.DeleteFocusSessionSpec | OneFocus/Services/PersistenceService.swift:87-91 | the same for sessions |
| Persistence.DeleteHistoryItemSpec | OneFocus/Services/PersistenceService.swift:130-134 | the same for history items |
| Persistence.ClearSpec | OneFocus/Services/PersistenceService.swift:136-145 | clearing the history empties it and keeps tasks and sessions; deleting all data empties all three lists and keeps every other key |
| Persistence.PersistenceService.SaveTasks | OneFocus/Services/PersistenceService.swift:26-30 | the tasks key holds the list |
| Persistence.PersistenceService.LoadTasks | OneFocus/Services/PersistenceService.swift:32-38 | returns the stored tasks, or none |
| Persistence.PersistenceService.SaveTask | OneFocus/Services/PersistenceService.swift:40-48 | the stored tasks become the replace-or-append of the task |
| Persistence.PersistenceService.DeleteTask | OneFocus/Services/PersistenceService.swift:50-54 | the stored tasks lose every task with the id |
| Persistence.PersistenceService.DeleteTaskWithId | OneFocus/Services/PersistenceService.swift:56-60 | the same, by id |
| Persistence.PersistenceService.SaveFocusSessions | OneFocus/Services/PersistenceService.swift:63-67 | the sessions key holds the list |
| Persistence.PersistenceService.LoadFocusSessions | OneFocus/Services/PersistenceService.swift:69-75 | returns the stored sessions, or none |
| Persistence.PersistenceService.SaveFocusSession | OneFocus/Services/PersistenceService.swift:77-85 | replace-or-append of the session |
| Persistence.PersistenceService.DeleteFocusSession | OneFocus/Services/PersistenceService.swift:87-91 | removes every session with the id |
| Persistence.PersistenceService.SaveHistoryItems | OneFocus/Services/PersistenceService.swift:106-110 | the history key holds the list |
| Persistence.PersistenceService.LoadHistoryItems | OneFocus/Services/PersistenceService.swift:112-118 | returns the stored items, or none |
| Persistence.PersistenceService.SaveHistoryItem | OneFocus/Services/PersistenceService.swift:120-128 | replace-or-append of the item |
| Persistence.PersistenceService.DeleteHistoryItem | OneFocus/Services/PersistenceService.swift:130-134 | removes every item with the id |
| Persistence.PersistenceService.ClearHistory | OneFocus/Services/PersistenceService.swift:136-138 | only the history key is removed |
| Persistence.PersistenceService.DeleteAllData | OneFocus/Services/PersistenceService.swift:141-145 | the three keys are removed, and every other key stays |
| Notes.DefaultNote | OneFocus/Models/Note.swift:19-25 | a new note is "Untitled" with empty content, created and modified now |
| Notes.PreviewSpec | OneFocus/Models/Note.swift:67-74 | content of at most 100 characters is its own preview; longer content shows the first 100 characters and "..." |
| Notes.SameNoteSpec | OneFocus/Models/Note.swift:77-79 | equality is by identifier only; it is an equivalence that survives edits; deleting by identifier drops exactly the notes equal to the given one, and the first note with its identifier is the first note equal to it |
| QuickNotes.SaveLoadRoundTrip | OneFocus/Views/Tabs/QuickNotesView.swift:680-693 | saving then loading gives the list back, even an empty one; a store without the key loads the three sample notes; other keys are untouched |
| QuickNotes.UpdateNoteSpec | OneFocus/Views/Tabs/QuickNotesView.swift:669-673 | updating replaces the first note with the id and keeps the length; an unknown id changes nothing |
| QuickNotes.ReplaceNewest | OneFocus/Views/Tabs/QuickNotesView.swift:669-673 | updating the note on top replaces it in place |
| QuickNotes.SavedStoreTwice | OneFocus/Views/Tabs/QuickNotesView.swift:689-693 | saving twice leaves what the second save wrote |
| QuickNotes.DeleteNoteSpec | OneFocus/Views/Tabs/QuickNotesView.swift:675-678 | deleting removes every note with the id and keeps the rest in order |
| QuickNotes.CapturedNoteSpec | OneFocus/Views/Tabs/QuickNotesView.swift:241-253 | a draft is captured when forced or when its trimmed title or body is non-empty; the note gets the trimmed title, or "Untitled", and the trimmed body |
| QuickNotes.CommitQuickCaptureIfNeeded | OneFocus/Views/Tabs/QuickNotesView.swift:241-253 | nothing changes unless the draft is captured; otherwise the captured note goes on top and is saved |
| QuickNotes.FilteredNotesSpec | OneFocus/Views/Tabs/QuickNotesView.swift:38-45 | a blank query shows every note; any other query shows, in order, exactly the notes whose lowercased title or content contains the lowercased query |
| QuickNotes.HotkeyDefaultsSpec | OneFocus/Views/Tabs/QuickNotesView.swift:782-800 | with nothing stored the hotkey is off and the modifiers read as command plus option (2304); an enabled hotkey without a key code is given K and registered |
| QuickNotes.ConfigureIfNeeded | OneFocus/Views/Tabs/QuickNotesView.swift:814-829 | registers nothing when disabled; otherwise it stores K for a missing key code and registers the stored key code and modifiers |
| QuickNotes.QuickNotesViewModel.constructor | OneFocus/Views/Tabs/QuickNotesView.swift:660 | the notes are what loading gives |
| QuickNotes.QuickNotesViewModel.CreateNote | OneFocus/Views/Tabs/QuickNotesView.swift:662-667 | a default note goes on top, is saved and is returned |
| QuickNotes.QuickNotesViewModel.UpdateNote | OneFocus/Views/Tabs/QuickNotesView.swift:669-673 | replaces the first note with the id, and saves only then |
| QuickNotes.QuickNotesViewModel.DeleteNote | OneFocus/Views/Tabs/QuickNotesView.swift:675-678 | removes every note with the id, then saves |
| QuickNotes.QuickNotesViewModel.LoadNotes | OneFocus/Views/Tabs/QuickNotesView.swift:680-687 | decoded notes, or the sample notes |
| QuickNotes.QuickNotesViewModel.SaveNotes | OneFocus/Views/Tabs/QuickNotesView.swift:689-693 | the notes key holds the list |
| ClipboardItems.NewItem | OneFocus/Models/ClipboardItem.swift:17-22 | a new item is not a favourite and keeps its content, id and time |
| ClipboardItems.PreviewSpec | OneFocus/Models/ClipboardItem.swift:31-37 | short content is its own preview; longer content is the first 100 characters and "..." |
| ClipboardItems.WordsSpec | OneFocus/Models/ClipboardItem.swift:39-45 | there are never more words than characters, and no words exactly for whitespace-only content |
| ClipboardItems.SameItemSpec | OneFocus/Models/ClipboardItem.swift:48-50 | equality is by identifier only, so toggling the favourite keeps an item equal; deleting by identifier drops exactly the items equal to the given one, and the first item with its identifier is the first item equal to it |
| Clipboard.FilteredItemsSpec | OneFocus/Views/Clipboard/ClipboardHistoryView.swift:39-59 | the list shown keeps the history's order and holds exactly the items passing both the filter and the case-insensitive search |
| Clipboard.CheckSpec | OneFocus/Views/Clipboard/ClipboardHistoryView.swift:447-471 | a check records nothing unless the pasteboard holds new, non-blank text; new text is remembered; it is added on top and capped at 100 unless it is already on top |
| Clipboard.NewestFirst | OneFocus/Views/Clipboard/ClipboardHistoryView.swift:463-466 | inserting at the front and keeping 100 puts the new item first, followed by the old items in order |
| Clipboard.CheckIdempotent | OneFocus/Views/Clipboard/ClipboardHistoryView.swift:447-471 | checking the same pasteboard again records nothing more |
| Clipboard.PreexistingContentIgnored | OneFocus/Views/Clipboard/ClipboardHistoryView.swift:424-440 | text already on the pasteboard when monitoring starts is never recorded |
| Clipboard.CheckKeepsCap | OneFocus/Views/Clipboard/ClipboardHistoryView.swift:463-466 | a history of at most 100 entries stays within 100 |
| Clipboard.ToggleMonitoringSpec | OneFocus/Views/Clipboard/ClipboardHistoryView.swift:387-394 | toggling flips monitoring and keeps the timer installed exactly while monitoring |
| Clipboard.FavoriteToggledSpec | OneFocus/Views/Clipboard/ClipboardHistoryView.swift:406-411 | only the first item with the id has its favourite flipped; an unknown id changes nothing; toggling twice restores the list |
| Clipboard.DeleteSpec | OneFocus/Views/Clipboard/ClipboardHistoryView.swift:413-416 | deleting drops every entry with the id and keeps the rest in order |
| Clipboard.SaveLoadRoundTrip | OneFocus/Views/Clipboard/ClipboardHistoryView.swift:473-484 | saving then loading gives the list back; a store without the key keeps the list held |
| Clipboard.ClipboardHistoryViewModel.constructor | OneFocus/Views/Clipboard/ClipboardHistoryView.swift:375-380 | loads, then starts monitoring seeded with the pasteboard |
| Clipboard.ClipboardHistoryViewModel.ToggleMonitoring | OneFocus/Views/Clipboard/ClipboardHistoryView.swift:387-394 | the toggle transition |
| Clipboard.ClipboardHistoryViewModel.ToggleFavorite | OneFocus/Views/Clipboard/ClipboardHistoryView.swift:406-411 | toggles the first match, and saves only then |
| Clipboard.ClipboardHistoryViewModel.DeleteItem | OneFocus/Views/Clipboard/ClipboardHistoryView.swift:413-416 | removes every entry with the id, then saves |
| Clipboard.ClipboardHistoryViewModel.ClearHistory | OneFocus/Views/Clipboard/ClipboardHistoryView.swift:418-421 | empties the list, then saves |
| Clipboard.ClipboardHistoryViewModel.StartMonitoring | OneFocus/Views/Clipboard/ClipboardHistoryView.swift:424-440 | the start transition, seeding the last text seen |
| Clipboard.ClipboardHistoryViewModel.StopMonitoring | OneFocus/Views/Clipboard/ClipboardHistoryView.swift:442-445 | the stop transition |
| Clipboard.ClipboardHistoryViewModel.CheckClipboard | OneFocus/Views/Clipboard/ClipboardHistoryView.swift:447-471 | the check transition, saving only when an item is added |
| Clipboard.ClipboardHistoryViewModel.LoadItems | OneFocus/Views/Clipboard/ClipboardHistoryView.swift:473-478 | decoded items replace the list |
| Clipboard.ClipboardHistoryViewModel.SaveItems | OneFocus/Views/Clipboard/ClipboardHistoryView.swift:480-484 | the history key holds the list |
| Store.ReadsAfterWrites | OneFocus/Models/UserSettings.swift:96-125 | each typed read returns what the matching write stored, and a missing key reads as the type's default |
| Store.Defaults.Set | OneFocus/Models/UserSettings.swift:44-94 | the key now maps to the value |
| Store.Defaults.Remove | OneFocus/Models/AuthManager.swift:72-75 | the key is gone |
| Settings.AppearanceFromRaw | OneFocus/Models/UserSettings.swift:8-10 | decoding succeeds exactly on "system", "light" and "dark", and encodes back to the input |
| Settings.AppearanceRoundTrip | OneFocus/Models/UserSettings.swift:8-10 | every appearance decodes from its raw value |
| Settings.ZeroMeansDefault | OneFocus/Models/UserSettings.swift:107-117 | a stored non-zero count is kept, and 0 gives the default |
| Settings.Reloaded | OneFocus/Models/UserSettings.swift:107-124 | a reload sees the same setting, with a count of 0 replaced by a non-zero default and every other value unchanged |
| Settings.ReloadField | OneFocus/Models/UserSettings.swift:44-125 | writing one setting leaves every other loaded setting as it was |
| Settings.LoadDefaults | OneFocus/Models/UserSettings.swift:96-125 | an empty store loads the product defaults; the counts are never 0, and a stored 0 loads as 25, 5, 15 or 4 |
| Settings.LoadedDurations | OneFocus/Models/UserSettings.swift:78-80 | the durations are the minutes times 60, non-zero, and positive when the stored minutes are |
| Settings.ReloadAfterSet | OneFocus/Models/UserSettings.swift:44-125 | after one assignment is written, a fresh load sees exactly that assignment, except that a count set to 0 comes back as its default |
| Settings.Clamped | OneFocus/Base/Helpers/TimeBehaviorCompat.swift:43-47 | 0 maps to the default; any other value is clamped into the range and kept when already in it |
| Settings.FlagsReadBack | OneFocus/Base/Helpers/TimeBehaviorCompat.swift:31-39 | haptics and sound are on until written, then read back the last value written, independently of each other |
| Settings.UserSettings.constructor | OneFocus/Models/UserSettings.swift:96-125 | the properties are what the store loads |
| Settings.UserSettings.Set | OneFocus/Models/UserSettings.swift:44-94 | the property changes and its observer writes it under its key |
| Settings.UserSettings.SetBreakMinutes | OneFocus/Base/Helpers/TimeBehaviorCompat.swift:16-19 | `breakMinutes` writes the short break and reads it back |
| Settings.UserSettings.SetHapticEnabled | OneFocus/Base/Helpers/TimeBehaviorCompat.swift:31-34 | the flag reads back as written and sound is unchanged |
| Settings.UserSettings.SetSoundEnabled | OneFocus/Base/Helpers/TimeBehaviorCompat.swift:36-39 | the flag reads back as written and haptics are unchanged |
| WorkingCopy.DefaultsSpec | OneFocus/Base/Helpers/SettingsWorkingCopy.swift:53-64 | the defaults are 25, 5 and 15 minutes and 4 sessions, with no auto-start and with haptics, notifications and sound on; they are also what an empty store copies out |
| WorkingCopy.ResetToDefaults | OneFocus/Base/Helpers/SettingsWorkingCopy.swift:100-102 | the copy becomes the defaults |
| WorkingCopy.ApplyThenCopyRoundTrip | OneFocus/Base/Helpers/SettingsWorkingCopy.swift:67-98 | applying a copy and copying back gives the same copy |
| WorkingCopy.CopyThenApplyUnchanged | OneFocus/Base/Helpers/SettingsWorkingCopy.swift:67-98 | applying an unedited copy leaves every setting and both flags unchanged |
| WorkingCopy.ApplyLeavesOthers | OneFocus/Base/Helpers/SettingsWorkingCopy.swift:84-98 | applying touches only the ten listed settings; the user name and clipboard limit stay |
| WorkingCopy.Apply | OneFocus/Base/Helpers/SettingsWorkingCopy.swift:84-98 | the live settings and the store become those of the applied copy |
| WorkingCopy.ApplyTimer | OneFocus/Base/Helpers/SettingsWorkingCopy.swift:84-90 | the appearance and the four timer settings take the copy's values and are written under their keys |
| WorkingCopy.ApplyBehaviour | OneFocus/Base/Helpers/SettingsWorkingCopy.swift:92-97 | the auto-start, haptics, notification and sound flags take the copy's values and are written under their keys |
| Auth.CapitalizedSpec | OneFocus/Models/AuthManager.swift:78-82 | capitalizing changes letter case only, and a leading letter comes out upper case |
| Auth.ExtractNameSpec | OneFocus/Models/AuthManager.swift:78-82 | the name is the text before the first "@", with only its case changed, and never contains "@" |
| Auth.BeforeAt | OneFocus/Models/AuthManager.swift:79-80 | the first component is the longest prefix without "@", and it ends at the first "@" |
| Auth.CapitalizedFrom | OneFocus/Models/AuthManager.swift:81 | capitalizing keeps the length and changes each character at most in case |
| Auth.CapitalizedWordStarts | OneFocus/Models/AuthManager.swift:81 | a character after a letter comes out lower case; one after any other character except an apostrophe (space, digit, hyphen, underscore) starts a word and comes out upper case |
| Auth.ExtractNameHyphen | OneFocus/Models/AuthManager.swift:78-82 | "mary-jo@x.com" gives the name "Mary-Jo" |
| Auth.ExtractNameUnderscore | OneFocus/Models/AuthManager.swift:78-82 | "jane_doe@x.com" gives the name "Jane_Doe" |
| Auth.ExtractNameDigit | OneFocus/Models/AuthManager.swift:78-82 | "user1abc@x.com" gives the name "User1Abc" |
| Auth.TransitionsSpec | OneFocus/Models/AuthManager.swift:25-51 | sign-in and sign-up authenticate with a new user; sign-in keeps the onboarding flag and sign-up clears it; sign-out clears all three; completing onboarding sets only its flag |
| Auth.SaveLoadRoundTrip | OneFocus/Models/AuthManager.swift:54-76 | saving then loading restores both flags and the user's e-mail and name, with a fresh identifier |
| Auth.SharedKeysSpec | OneFocus/Models/AuthManager.swift:65-76 | the user name and onboarding flag use the settings' keys; signing out removes the name, so the settings fall back to their default name, and signing in writes the derived name |
| Auth.AuthManager.constructor | OneFocus/Models/AuthManager.swift:20-22 | the state is what loading the store gives |
| Auth.AuthManager.SignIn | OneFocus/Models/AuthManager.swift:25-31 | the sign-in transition, then saved |
| Auth.AuthManager.SignUp | OneFocus/Models/AuthManager.swift:33-39 | the sign-up transition, then saved |
| Auth.AuthManager.SignOut | OneFocus/Models/AuthManager.swift:41-46 | the sign-out transition, then saved |
| Auth.AuthManager.CompleteOnboarding | OneFocus/Models/AuthManager.swift:48-51 | sets the flag, then saved |
| Auth.AuthManager.LoadAuthState | OneFocus/Models/AuthManager.swift:54-63 | flags from the store; the user is replaced only when one can be restored |
| Auth.AuthManager.SaveAuthState | OneFocus/Models/AuthManager.swift:65-76 | the store holds the flags, and the user or no user |
| SignIn.IsFormValidSpec | OneFocus/Views/Auth/SignInView.swift:142-148 | sign-up needs all three fields and a password of six or more characters; sign-in needs an e-mail address and a password |
| SignIn.RenderedFormNeverValid | OneFocus/Views/Auth/SignInView.swift:75-115 | as rendered, with no e-mail field, the form is never valid and sign-in derives an empty name |
| SignIn.SignInWithEmailField | OneFocus/Views/Auth/SignInView.swift:151-161 | with an e-mail field, a valid sign-in with an address not starting with "@" gives a user with a non-empty name, which the settings then hold |
| SignIn.HandleAuth | OneFocus/Views/Auth/SignInView.swift:151-161 | runs whatever the form's validity; the manager takes the sign-in or sign-up transition, and the settings' name becomes the user's |
| SignIn.CopiedNameRedundant | OneFocus/Views/Auth/SignInView.swift:151-161 | copying the name writes what the manager has just saved under the same key |
| FocusScreen.ControlsSpec | OneFocus/ViewModels/FocusViewModel.swift:34-45 | start and pause set the session flag and keep the remaining time; ending stops the session, keeps its type and restores 1500 seconds, reading "25:00" |
| FocusScreen.FormattedTimeRemainingSpec | OneFocus/ViewModels/FocusViewModel.swift:27-31 | the text reads back as whole minutes and seconds |
| FocusScreen.FocusViewModel.constructor | OneFocus/ViewModels/FocusViewModel.swift:15-17 | inactive, on focus, with 1500 seconds |
| FocusScreen.FocusViewModel.StartSession | OneFocus/ViewModels/FocusViewModel.swift:34-36 | the start transition |
| FocusScreen.FocusViewModel.PauseSession | OneFocus/ViewModels/FocusViewModel.swift:38-40 | the pause transition |
| FocusScreen.FocusViewModel.EndSession | OneFocus/ViewModels/FocusViewModel.swift:42-45 | the end transition |
| Stats.DailyGoalMinutes | OneFocus/Views/Tabs/StatsView.swift:234-238 | the goal is at least one minute |
| Stats.DailyGoalSpec | OneFocus/Views/Tabs/StatsView.swift:234-246 | the goal splits into hours and 0 to 59 minutes; whole hours end in "h", other totals in "m", and under an hour there is no "h" |
| Stats.FormattedDailyGoalRoundTrip | OneFocus/Views/Tabs/StatsView.swift:234-246 | the text reads back as exactly the goal in minutes |
| Constants.TimerDefaultsSpec | OneFocus/Constants.swift:79-84 | the defaults are 1500, 300 and 900 seconds and 4 sessions, the same values settings load from an empty store |
| Constants.ChannelsInRange | OneFocus/Constants.swift:140-163 | every channel is a byte, whatever the string |
| Constants.ComponentsInUnitRange | OneFocus/Constants.swift:140-163 | every component passed to the colour lies between 0 and 1 |
| Constants.ThreeDigitSpec | OneFocus/Constants.swift:146-147 | three digits give one nibble times 17 per channel, fully opaque |
| Constants.SixDigitSpec | OneFocus/Constants.swift:148-149 | six digits are red, green and blue bytes, high to low, fully opaque |
| Constants.EightDigitSpec | OneFocus/Constants.swift:150-151 | eight digits are alpha, red, green and blue bytes |
| Constants.OtherLengthSpec | OneFocus/Constants.swift:152-153 | any other length is opaque black |
| Constants.HashPrefixExample | OneFocus/Constants.swift:141-147 | "#FFF" is treated as three digits and gives white |
| Constants.ScannedDigits | OneFocus/Constants.swift:143 | the scan reads only hexadecimal digits, never more than the string has characters |
| Constants.HexPrefixSpec | OneFocus/Constants.swift:143 | a `0x` or `0X` prefix is skipped, and the value is that of the digits after it |
| Constants.HexPrefixSixExample | OneFocus/Constants.swift:141-149 | "0x1234" has six characters and gives red 0, green 0x12, blue 0x34, opaque |
| Constants.HexPrefixThreeExample | OneFocus/Constants.swift:141-147 | "0x1" has three characters and gives blue 17, opaque |
| Text.DigitsRoundTrip | OneFocus/Manager/FocusTimerManager.swift:58-62 | decimal digits read back as the number |
| Text.Digits | OneFocus/Manager/FocusTimerManager.swift:58-62 | the decimal text is one or more digits, with no leading zero |
| Text.IntString | OneFocus/Views/Tabs/StatsView.swift:234-246 | Swift's integer interpolation: digits, with a leading minus for negatives |
| Text.Pad2Spec | OneFocus/Services/TimerService.swift:117-121 | `%02d` gives at least two digits, exactly two below 100, and reads back as the number |
| Text.FormatClockRoundTrip | OneFocus/Services/TimerService.swift:117-121 | `%02d:%02d` of a non-negative time reads back as its whole minutes and seconds |
| Text.TrimSpec | OneFocus/Views/Tabs/QuickNotesView.swift:241-253 | trimming gives a contiguous slice with no whitespace at either end, and is empty exactly for whitespace-only text |
| Text.TrimStart | OneFocus/Views/Tabs/QuickNotesView.swift:242-243 | trimming the start drops only whitespace, and leaves no leading whitespace |
| Text.TrimEnd | OneFocus/Views/Tabs/QuickNotesView.swift:242-243 | trimming the end drops only whitespace, and leaves no trailing whitespace |
| Text.Lower | OneFocus/Views/Tabs/QuickNotesView.swift:41-43 | `lowercased()` keeps the length and lower-cases each character |
| Text.ContainsSpec | OneFocus/Views/Tabs/QuickNotesView.swift:38-45 | the search finds the needle exactly when it occurs at some position |
| Text.EllipsizedSpec | OneFocus/Models/Note.swift:67-74 | text within the limit is unchanged; longer text is its prefix and "...", never above the limit plus three |
| Text.WordCountSpec | OneFocus/Models/ClipboardItem.swift:39-41 | the word count never exceeds the length, and is 0 exactly for whitespace-only text |
| Text.Components | OneFocus/Models/ClipboardItem.swift:39-41 | splitting on whitespace gives at least one piece, and the first piece is empty exactly when the text is empty or starts with whitespace |
| Text.WordCountIsWordEnds | OneFocus/Models/ClipboardItem.swift:39-41 | the non-empty pieces are exactly the words, one per word end |
| Text.WordEndsBounds | OneFocus/Models/ClipboardItem.swift:39-41 | there are never more words than characters, and none exactly for whitespace-only text |

## Left out

- User interface: views, animations and layout. The models they display and the logic behind their buttons are modelled.
- Platform timers and run loops. A repeating timer is a `scheduled` flag, and its firings are explicit `Tick` and `CheckClipboard` calls.
- Notification delivery and haptics (`notify`, `HapticManager`). A completion only counts one notification request.
- Floating point. `TimeInterval` is whole seconds; `completionPercentage` and the completion rate use exact reals.
- Time zones and daylight saving. A day is 86400 seconds. The start of a month or year before `now` is an input (`Clock`), not computed.
- Swift's 64-bit `Int` overflow. Integers are unbounded.
- Unicode. Case folding, whitespace and letter classes cover the ASCII range only, and a character is one `char`, not a grapheme cluster.
- Auth.CapitalizedFrom: Foundation's word boundaries are approximated on ASCII text: any non-letter starts a new word, except that an apostrophe continues the current one; Foundation's locale-dependent rules for other punctuation are not modelled.
- Rich text. A note's RTF body is its plain text.
- JSON and the file system. Encoding and decoding are exact, and encoding never fails. A corrupt payload is one `Garbage` value. Whether the history file can be written is a flag set by the environment.
- Failed saves and loads are only printed in the source; here they are swallowed silently.
- The pasteboard. It is a parameter holding the text present at that moment.
- `copyToClipboard` writes to the pasteboard only and is not modelled.
- Hotkeys. Carbon hot-key registration and `HotkeyManager` are left out; `ConfigureIfNeeded` returns what it would register.
- Analytics, not modelled:
  - `getProductiveHour`, `getProductiveDay` and `generateInsights` depend on calendar components and locale formatting.
  - `getTotalFocusTime` and `getAverageSessionDuration` read `Double` metadata.
  - The per-type `track…` helpers only build an event for `trackEvent`, which is modelled.
  - `saveEvent` and `loadEvents` have empty bodies in the source.
- Analytics export: the `Date` description of a row is a `renderDate` parameter, and a metadata dictionary is its list of pairs in iteration order.
- `PersistenceService.exportData` is left out because it is JSON only. `loadSessions`, `saveSession`, `deleteSession` and `clearAllData` are left out because they only forward to modelled methods.
- `TasksViewModel` load and save have empty bodies and are not modelled.
- `Sorting.SortBy`: `sorted(by:)` is not a stable sort in Swift. The model is stable, and its contract claims only permutation and order.
- `Color(hex:)`: what `scanHexInt64` does when the digits overflow 64 bits is not modelled. Only lengths 3, 6 and 8 use the value, and at most eight digits cannot overflow.
- The clipboard history caps itself at 100 entries as written, not at the `clipboardLimit` setting.
- `FocusTimer.FocusTimerManager.HandleScenePhase`, `Tick`, `CatchUpIfNeeded` and `TimerCompleted` require a non-zero long-break cadence whenever breaks auto-start. The source traps on `% 0` there.
- `FocusTimer.FocusTimerManager.ConfigureForUserSettings` takes no settings argument. The source ignores its argument and reads the settings object it holds.
- `QuickNotes.ConfigureIfNeeded` requires stored key codes and modifiers that fit in 32 bits. The source's `UInt32(_:)` traps otherwise.
- `SignIn.HandleAuth` requires the authentication manager and the settings to share one store, as `UserDefaults.standard` does.

## Findings

| source | as written | input that shows it | evidently intended | confidence | as-written member | corrected member |
|---|---|---|---|---|---|---|
| OneFocus/Manager/FocusTimerManager.swift:184-197 | `tick` debits the whole seconds since the last tick and then one more second, and re-stamps the last tick | on the integer clock, ticks exactly one second apart: 1500 becomes 1498 after one tick. On the wall clock `Int(now.timeIntervalSince(last))` of a roughly one-second interval truncates to 0 or 1 with timer jitter, so the extra debit is up to one second per tick rather than a steady two seconds per second | the timer counts down one second per second of wall clock | high, not executed | FocusTimer.TickDebitsTwoSecondsPerSecond | FocusTimer.CorrectedTickTracksClock |
| OneFocus/Manager/FocusTimerManager.swift:184-197 | when catch-up inside `tick` runs the session out and nothing auto-starts, `timerCompleted` runs twice | a running focus session with 5 seconds left and a tick 10 seconds after the last one: the focus count rises by 2 and two notifications are requested | each session completes once | high, not executed | FocusTimer.TickCompletesTwice | FocusTimer.CorrectedTickCompletesOnce |
| OneFocus/Services/AnalyticsService.swift:249-259 | a day is accepted when it is the cursor or the day before it, and the cursor then moves to the day before the accepted day, so a skipped day does not end the streak | sessions today and two days ago but not yesterday: streak 2 | a streak counts consecutive days, with only its latest day allowed to be yesterday | medium (the one-day grace might be deliberate), not executed | Analytics.CurrentStreakSkipsGap | Analytics.CorrectedStreakSpec |
| OneFocus/Views/Auth/SignInView.swift:75-115 | the form has password and name fields but no e-mail field, so `email` stays "" | any password, in either mode: the form is never valid, and signing in derives the name "" | the form has an e-mail field | high, not executed | SignIn.RenderedFormNeverValid | SignIn.SignInWithEmailField |

The manager class, the analytics service and the sign-in handler keep the source's behaviour as
written, so that every method stays faithful to the code. Each corrected definition stands beside
its as-written one (`FocusTimer.CorrectedTick`, `Analytics.CorrectedCurrentStreak`, a form with an
e-mail field). The intended property is proved about each corrected definition. The corrected
streak is also proved never to exceed the as-written one.
