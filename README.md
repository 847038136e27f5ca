# Mood and health tracker: the model and view-model logic

This project models, in Dafny, the logic of a small SwiftUI mood and health
diary. Users sign in by email. Each day they record a mood (one of ten moods
with an intensity from 1 to 10 and optional notes) and health metrics (steps,
active calories, sleep hours and water litres). The metrics are synchronised
from Apple Health unless the user has entered them by hand. The application
shows statistics and short insights, and builds a text summary of recent
entries as context for a chat assistant.

The model covers:

- the domain records;
- the health, mood and session view-models;
- the context summariser;
- the logic of the home screen.

## Modelling choices

- **Store.** The SwiftData `ModelContext` is a class holding one sequence per
  record kind (`Persistence.ModelContext`). Like the application's fetch
  descriptors, a fetch is not restricted to the current user.
  - An insertion appends. A deletion removes every occurrence of the object.
  - Changes are visible at once, so `save()` has no state of its own.
  - A failing save is a parameter (`saveError`) of the operation that saves.
- **Dates.** Dates are integer timestamps in seconds; a day is 86400 seconds.
  "Now" is a parameter, and the start of today is `Persistence.StartOfDay` of
  it.
- **Numbers.** Swift `Double` is `real`, so every mean is exact. `Int` is
  unbounded `int`.
- **Identity.** UUIDs are integer ids supplied by the caller.
- **Classes and records.** Records the application updates in place
  (`MoodEntry`, `HealthDataEntry`, `User`, `AppSettings`) are classes.
  - Their id and creation date are `const`.
  - The view-models are classes with the published properties as fields.
  - Each entry class has a value snapshot, `Record()`. The statistics are
    functions of these snapshots.
- **Health metrics.** A metric of a health entry is a `Slot`: an optional
  value plus the "manually edited" lock. `Written` is the shared meaning of
  the four `updateX(_:manual:)` methods.
- **Apple Health.** Its availability and the fetched
  `(steps, calories, sleep, water)` tuple, or the fetch error, are parameters
  of the sync.
- **Session.** The session email kept in `UserDefaults` is the field
  `sessionEmail` of the session view-model.

### Behaviour worth noting

- **Weekly health averages count missing values as zero.**
  `calculateWeeklyAverages` divides each metric's sum by the number of ALL
  entries of the week, also those without that metric
  (src/ViewModels/HealthViewModel.swift:221-227), so `[{steps: nil},
  {steps: 1000}]` averages to 500. `HealthViewModel.WeeklyAverage` models
  this, and `HealthViewModel.WeeklyAverageCountsMissingAsZero` proves the
  500. The context summariser's `avg` divides by the number of present
  values instead; `UserContextBuilder.CaloriesAverageOfOneMissing` contrasts
  the two on the same data.
- **The regular-tracking praise looks at the first seven recent entries.**
  `generateInsights` counts `recentMoodEntries.prefix(7)` whatever their
  dates (src/ViewModels/MoodViewModel.swift:218-219), so five old entries
  earn it; `MoodViewModel.OldEntriesOnlyEarnPraise` states this.

## Model

| member | source | states |
|---|---|---|
| Models.MoodIndex | src/Models/Models.swift:50-60 | every mood appears in the list of all moods, at exactly one position |
| Models.NumericValue | src/Models/Models.swift:79-88 | the score is one of 1, 3, 4, 5, 7, 9, so it lies in [1, 9]; 9 exactly for very happy and energetic, 7 exactly for happy and calm, 5 exactly for neutral |
| Models.ClampIntensity | src/Models/Models.swift:109 | the stored intensity lies in [1, 10]; it equals an input within [1, 10], is 10 above and 1 below (15 gives 10, -3 gives 1) |
| Models.NotesOrNil | src/ViewModels/MoodViewModel.swift:94 | empty notes are stored as none, any other text as itself |
| Models.MoodEntry.constructor | src/Models/Models.swift:104-110 | a new mood entry has the given mood, notes and creation time, and the clamped intensity |
| Models.Written | src/Models/Models.swift:141-170 | an update stores the value; a manual update sets the lock, an automatic one keeps it, so no update clears a lock |
| Models.NewHealthRecord | src/Models/Models.swift:131-138 | a new health entry has no metric and every lock open |
| Models.HealthDataEntry.constructor | src/Models/Models.swift:131-138 | a new health entry's snapshot is the empty record of its date |
| Models.MetricValue | src/ViewModels/HealthViewModel.swift:216-224 | a metric read as a real: steps converted from `Int`, absent exactly when the stored metric is absent |
| Models.HealthDataEntry.UpdateSteps | src/Models/Models.swift:141-146 | the steps slot becomes `Written(old, value, manual)`; the other three metrics and locks are unchanged |
| Models.HealthDataEntry.UpdateCalories | src/Models/Models.swift:149-154 | the calories slot becomes `Written(old, value, manual)`; the rest is unchanged |
| Models.HealthDataEntry.UpdateSleep | src/Models/Models.swift:157-162 | the sleep slot becomes `Written(old, hours, manual)`; the rest is unchanged |
| Models.HealthDataEntry.UpdateWater | src/Models/Models.swift:165-170 | the water slot becomes `Written(old, liters, manual)`; the rest is unchanged |
| Models.User.constructor | src/Models/Models.swift:33-41 | a new user has the given email and name, no profile data, created and updated now, and no mood or health entries |
| Models.User.UpdateTimestamp | src/Models/Models.swift:44-46 | only the update time changes, to now |
| Models.AppSettings.constructor | src/Models/Models.swift:189-199 | new settings: notifications on, language "de", auto-sync on, daily reminder at 20:00, never synced |
| Persistence.StartOfDay | src/ViewModels/HealthViewModel.swift:42-43 | the start of the day lies at or before now, less than a day before, and on a day boundary |
| Persistence.HealthOnDay | src/ViewModels/HealthViewModel.swift:49-53 | exactly the stored health entries dated in [today, today + 1 day) |
| Persistence.MoodOnDay | src/ViewModels/MoodViewModel.swift:42-46 | exactly the stored mood entries dated in [today, today + 1 day) |
| Persistence.HealthBetween | src/ViewModels/HealthViewModel.swift:188-193 | the stored health entries dated in [start, end], each once, sorted oldest first |
| Persistence.MoodBetween | src/Utilities/UserContextBuilder.swift:19-24 | the stored mood entries dated in [start, end], each once, sorted oldest first |
| Persistence.MoodBetweenEmpty | src/Utilities/UserContextBuilder.swift:19-25 | the mood fetch of a window is empty exactly when no stored entry is dated in it |
| Persistence.NewestMoodsFirst | src/ViewModels/MoodViewModel.swift:67-69 | all stored mood entries, each once, sorted newest first |
| Persistence.UsersWithEmail | src/ViewModels/AppViewModel.swift:55-59 | exactly the stored users with the given email |
| Persistence.Without | src/ViewModels/MoodViewModel.swift:123 | the deleted object is gone, every other stored object stays, and nothing is added |
| HealthViewModel.SyncSlot | src/ViewModels/HealthViewModel.swift:91-102 | a locked metric is left exactly as it is; an open one takes the fetched value; the lock never changes |
| HealthViewModel.Merge | src/ViewModels/HealthViewModel.swift:90-102 | each metric takes the fetched value exactly when its lock is open; no lock and not the date changes |
| HealthViewModel.LocksNeverCleared | src/Models/Models.swift:141-170 | no sequence of manual edits and syncs clears a lock that was set |
| HealthViewModel.LockedValuesSurviveSync | src/ViewModels/HealthViewModel.swift:90-102 | a locked metric keeps its value through any sequence of syncs and of edits of the other metrics |
| HealthViewModel.ManualStepsSurviveSync | src/ViewModels/HealthViewModel.swift:91-93 | manually entered 500 steps survive a sync that reports 9000; unlocked, they are overwritten with 9000 |
| HealthViewModel.Present | src/ViewModels/HealthViewModel.swift:216-219 | the present values of a metric: at most one per entry, as many as entries when every entry has one, none when no entry has one |
| HealthViewModel.PresentFromEntries | src/ViewModels/HealthViewModel.swift:216-219 | every present value is the value of the metric of one of the entries |
| HealthViewModel.PresentWhenComplete | src/ViewModels/HealthViewModel.swift:216-219 | when every entry has the metric, the present values are exactly the entries' values, in entry order |
| HealthViewModel.WeeklyAverage | src/ViewModels/HealthViewModel.swift:212-228 | 0 with no entries; otherwise the average times the number of ALL entries is the sum of the present values |
| HealthViewModel.WeeklyAverageIsMeanWhenComplete | src/ViewModels/HealthViewModel.swift:216-228 | when every entry has the metric, the weekly average is the plain mean of the values |
| HealthViewModel.WeeklyAverageCountsMissingAsZero | src/ViewModels/HealthViewModel.swift:221-224 | an entry without steps and one with 1000 steps average to 500; a single entry without steps gives 0 |
| HealthViewModel.HealthViewModel.constructor | src/ViewModels/HealthViewModel.swift:19-33 | starts with no today entry, no error and neither loading nor syncing |
| HealthViewModel.HealthViewModel.LoadTodayHealthData | src/ViewModels/HealthViewModel.swift:38-70 | without a store or user nothing changes. Today starts at `StartOfDay(now)`. An entry dated today is adopted and nothing is inserted. Otherwise exactly one fresh empty entry dated today is appended to the store and to the user's entries and adopted, or the save error is reported. Afterwards the store has an entry for today, so a second call creates no duplicate |
| HealthViewModel.HealthViewModel.SyncEntry | src/ViewModels/HealthViewModel.swift:90-102 | the entry's new snapshot is `Merge` of its old snapshot and the fetched data |
| HealthViewModel.HealthViewModel.SyncWithHealthKit | src/ViewModels/HealthViewModel.swift:76-114 | unavailable: "HealthKit ist nicht verfügbar" and no entry changes. A failed fetch reports its error and changes no entry. Otherwise today's entry, if any, becomes `Merge` of itself and the data, and a failed save is reported. The syncing flag is false on every return once a sync started |
| HealthViewModel.HealthViewModel.ReportSaveError | src/ViewModels/HealthViewModel.swift:124-128 | a failed save is reported only when there is a store; otherwise the error message is kept |
| HealthViewModel.HealthViewModel.UpdateSteps | src/ViewModels/HealthViewModel.swift:119-129 | no today entry: nothing changes; otherwise steps are set and locked, the rest unchanged, and a failed save reported |
| HealthViewModel.HealthViewModel.UpdateCalories | src/ViewModels/HealthViewModel.swift:132-142 | no today entry: nothing changes; otherwise calories are set and locked, the rest unchanged |
| HealthViewModel.HealthViewModel.UpdateSleep | src/ViewModels/HealthViewModel.swift:145-155 | no today entry: nothing changes; otherwise sleep is set and locked, the rest unchanged |
| HealthViewModel.HealthViewModel.UpdateWater | src/ViewModels/HealthViewModel.swift:158-168 | no today entry: nothing changes; otherwise water is set and locked, the rest unchanged |
| HealthViewModel.HealthViewModel.LoadHealthDataForRange | src/ViewModels/HealthViewModel.swift:185-201 | no store: nothing. Otherwise exactly the stored entries dated in [start, end], sorted oldest first: each listed entry is stored and in range, and each stored entry in range is listed |
| HealthViewModel.HealthViewModel.CalculateWeeklyAverages | src/ViewModels/HealthViewModel.swift:206-229 | the four results are `WeeklyAverage` of the entries of the last seven days; all 0 without a store |
| MoodViewModel.InWindow | src/ViewModels/MoodViewModel.swift:166 | exactly the entries dated at or after the start of the window |
| MoodViewModel.Scores | src/ViewModels/MoodViewModel.swift:170 | one score per entry, its mood's numeric value |
| MoodViewModel.AverageMoodValue | src/ViewModels/MoodViewModel.swift:164-172 | 5.0 for an empty window; otherwise the mean of the window's scores; always in [1, 9] |
| MoodViewModel.AverageTimesCount | src/ViewModels/MoodViewModel.swift:164-172 | for a non-empty window, the average times the number of entries in the window is the window's total score |
| MoodViewModel.AverageOfUniformWindow | src/ViewModels/MoodViewModel.swift:168-171 | a window whose entries all have one mood averages to that mood's score |
| MoodViewModel.HappyAndCalmAverageSeven | src/ViewModels/MoodViewModel.swift:168-171 | a happy and a calm entry in the window average to 7.0 |
| MoodViewModel.MoodCountPresent | src/ViewModels/MoodViewModel.swift:157-158 | the mood of any entry has a count of at least one |
| MoodViewModel.MoodCountSnoc | src/ViewModels/MoodViewModel.swift:191-193 | counting one more entry adds one to its own mood's count and nothing to any other |
| MoodViewModel.MostCommon | src/ViewModels/MoodViewModel.swift:160 | the chosen mood is a candidate and no candidate has a larger count |
| MoodViewModel.MostFrequentMood | src/ViewModels/MoodViewModel.swift:151-161 | none exactly when the seven-day window is empty; otherwise a mood of the window that no mood outnumbers |
| MoodViewModel.ToPoints | src/ViewModels/MoodViewModel.swift:179-180 | one point per entry holding its date and score |
| MoodViewModel.MoodChartData | src/ViewModels/MoodViewModel.swift:175-182 | a permutation of the window's points, sorted oldest first, each dated in the window and valued in [1, 9] |
| MoodViewModel.ChartPointsInRange | src/ViewModels/MoodViewModel.swift:177-180 | each point of the window is dated in the window and valued in [1, 9] |
| MoodViewModel.OccursOnce | src/Models/Models.swift:50-60 | each mood occurs exactly once among all moods |
| MoodViewModel.CountsAddUp | src/ViewModels/MoodViewModel.swift:191-193 | the counts of all ten moods add up to the number of entries |
| MoodViewModel.TotalOfCounts | src/ViewModels/MoodViewModel.swift:189-195 | a map holding each counted mood's count totals to the sum of the counts |
| MoodViewModel.DistributionStep | src/ViewModels/MoodViewModel.swift:191-193 | incrementing the entry's mood (from 0 when absent) keeps the map an exact distribution of the entries seen |
| MoodViewModel.DistributionTotal | src/ViewModels/MoodViewModel.swift:185-196 | an exact distribution has counts of at least one that add up to the number of entries |
| MoodViewModel.InsightsDistinct | src/ViewModels/MoodViewModel.swift:207-220 | the most-frequent-mood message differs from the three fixed messages |
| MoodViewModel.Insights | src/ViewModels/MoodViewModel.swift:201-224 | the positive message iff the average is at least 7, the supportive one iff at most 4, never both; the mood message iff a most frequent mood exists; the praise iff the first seven recent entries are at least five; at most three messages, in rule order |
| MoodViewModel.OldEntriesOnlyEarnPraise | src/ViewModels/MoodViewModel.swift:218-220 | five or more recent entries all older than the week earn the praise and no other message |
| MoodViewModel.RecentFirst | src/ViewModels/MoodViewModel.swift:67-73 | at most `limit` stored entries (exactly `limit` when there are that many), a prefix of all entries newest first; no entry left out is newer than any listed |
| MoodViewModel.DeletedNotListed | src/ViewModels/MoodViewModel.swift:123-127 | after a deletion the reloaded list does not contain the deleted entry |
| MoodViewModel.MoodViewModel.constructor | src/ViewModels/MoodViewModel.swift:19-31 | starts with no today entry, no recent entries, and input neutral, 5, empty notes |
| MoodViewModel.MoodViewModel.LoadTodayMoodEntry | src/ViewModels/MoodViewModel.swift:36-61 | with today starting at `StartOfDay(now)`, the first entry dated today becomes today's entry and fills the input (notes "" when none); with none, today's entry is cleared and the input kept; without a store nothing changes |
| MoodViewModel.MoodViewModel.LoadRecentMoodEntries | src/ViewModels/MoodViewModel.swift:64-77 | the recent list becomes `RecentFirst` of the store; without a store it is kept |
| MoodViewModel.MoodViewModel.SaveMoodEntry | src/ViewModels/MoodViewModel.swift:82-117 | no store or user: nothing changes. Today's entry is updated in place with the unclamped intensity, only its mood, intensity and notes change, and the store keeps its size, or one fresh entry with clamped intensity is appended to the store and to the user and becomes today's entry. Empty notes are stored as none. A successful save reloads the 30 most recent, a failed one reports. Loading is off at the end |
| MoodViewModel.MoodViewModel.WriteToday | src/ViewModels/MoodViewModel.swift:90-105 | today's entry is revised in place (only its mood, intensity and notes change; triggers and activities stay), or a fresh one is created, inserted and linked to the user |
| MoodViewModel.MoodViewModel.Revise | src/ViewModels/MoodViewModel.swift:92-94 | the entry takes the selected mood, the unclamped intensity and the notes; no other field of it changes, so triggers and activities stay |
| MoodViewModel.MoodViewModel.CreateToday | src/ViewModels/MoodViewModel.swift:97-104 | a fresh entry with the input and clamped intensity is appended to the store and to the user, and becomes today's entry |
| MoodViewModel.MoodViewModel.ResetInput | src/ViewModels/MoodViewModel.swift:142-146 | the input becomes neutral, 5 and empty notes |
| MoodViewModel.MoodViewModel.DeleteMoodEntry | src/ViewModels/MoodViewModel.swift:120-137 | the entry leaves the store. A failed save only reports. Otherwise the recent list is reloaded without it, and today's entry is cleared and the input reset exactly when the ids match |
| MoodViewModel.MoodViewModel.ForgetToday | src/ViewModels/MoodViewModel.swift:130-133 | when today's entry has the id it is cleared and the input reset; otherwise nothing changes |
| MoodViewModel.MoodViewModel.MostFrequentMoodLastWeek | src/ViewModels/MoodViewModel.swift:151-161 | none exactly when no loaded entry is from the last seven days; otherwise a mood of that week with a count of at least one that no mood outnumbers |
| MoodViewModel.MoodViewModel.GetAverageMoodValue | src/ViewModels/MoodViewModel.swift:164-172 | 5.0 when no loaded entry is from the last `days` days; otherwise the mean score of those entries; always in [1, 9] |
| MoodViewModel.MoodViewModel.GetMoodDistribution | src/ViewModels/MoodViewModel.swift:185-196 | the keys are exactly the moods of the window, each mapped to its count, so every count is at least one; the counts add up to the window's size |
| MoodViewModel.MoodViewModel.GenerateInsights | src/ViewModels/MoodViewModel.swift:201-224 | the result is `Insights` of the week's average, the week's most frequent mood and the count of the first seven recent entries; empty when there are no recent entries |
| UserContextBuilder.Avg | src/Utilities/UserContextBuilder.swift:72-75 | none exactly for no values; otherwise the average times the count is the sum |
| UserContextBuilder.AvgWithin | src/Utilities/UserContextBuilder.swift:72-75 | an average of values in [lo, hi] lies in [lo, hi] |
| UserContextBuilder.MoodAverage | src/Utilities/UserContextBuilder.swift:37 | none exactly without moods; otherwise the average times the count is the sum of the scores, and lies in [1, 9] |
| UserContextBuilder.StepsValues | src/Utilities/UserContextBuilder.swift:39 | at most one value per entry, and every value that takes part is positive (absent steps count as 0 and are dropped) |
| UserContextBuilder.StepsValuesSnoc | src/Utilities/UserContextBuilder.swift:39 | one more entry adds its steps exactly when they are positive |
| UserContextBuilder.StepsIgnoreMissing | src/Utilities/UserContextBuilder.swift:39 | an entry without steps or with 0 steps leaves the steps average unchanged |
| UserContextBuilder.PresentSnoc | src/Utilities/UserContextBuilder.swift:38 | one more entry adds its value of the metric exactly when it has one |
| UserContextBuilder.AveragesSkipMissing | src/Utilities/UserContextBuilder.swift:38-41 | an entry without the metric leaves the sleep, calorie or water average unchanged |
| UserContextBuilder.CaloriesAverageOfOneMissing | src/Utilities/UserContextBuilder.swift:40 | one entry without calories and one with 1000 average to 1000 here, but to 500 as a weekly average |
| UserContextBuilder.Digits | src/Utilities/UserContextBuilder.swift:46 | a natural number's text is non-empty and made of decimal digits |
| UserContextBuilder.DigitsRoundTrip | src/Utilities/UserContextBuilder.swift:46 | the digits read back as the number they were written from |
| UserContextBuilder.IntToString | src/Utilities/UserContextBuilder.swift:46 | an integer's text: its digits, read back as the number, after a minus sign when negative |
| UserContextBuilder.LastMoodText | src/Utilities/UserContextBuilder.swift:43-47 | the placeholder exactly when there is no last mood; otherwise the mood's label and "(Intensität i/10)" |
| UserContextBuilder.ShowOr | src/Utilities/UserContextBuilder.swift:52-63 | a present value is shown as that number, an absent one as the placeholder |
| UserContextBuilder.Summarize | src/Utilities/UserContextBuilder.swift:36-63 | the name and window length are shown as given. Age, weight and height are shown, or "unbekannt" when absent. The mood is shown as `MoodAverage` of the moods, the steps as `Avg` of the positive step counts, and calories, sleep and water as `Avg` of the entries that have them, each "n/a" when there is none. The last mood is the placeholder exactly without moods, else the last one's text |
| UserContextBuilder.SummaryIsReadable | src/Utilities/UserContextBuilder.swift:36-63 | the mood average is shown exactly with moods, in [1, 9]; a shown steps average is positive; no field is blank and the last mood is never empty |
| UserContextBuilder.ContextIsComplete | src/Utilities/UserContextBuilder.swift:49-63 | the context has the user's name and the window length, and every field shows a number or a non-empty text |
| UserContextBuilder.ShownLastMood | src/Utilities/UserContextBuilder.swift:43-47 | the context's last-mood text is that of the last entry of the window's mood fetch, or the placeholder |
| UserContextBuilder.LastMoodOfContext | src/Utilities/UserContextBuilder.swift:16-47 | the placeholder exactly when no stored mood entry is dated in [end - daysBack days, end]; otherwise the text of a stored, windowed entry no windowed entry is newer than |
| UserContextBuilder.AveragesOfContext | src/Utilities/UserContextBuilder.swift:19-41 | the context shows `MoodAverage` of the window's mood entries (shown exactly when there is one, in [1, 9]), `Avg` of their positive step counts (positive when shown), and `Avg` of the calorie, sleep and water values that are present |
| UserContextBuilder.BuildContext | src/Utilities/UserContextBuilder.swift:11-63 | the context shows the user's name, weight and height (or "unbekannt"), "unbekannt" exactly for a missing age, and the requested window length |
| UserContextBuilder.WindowedMoods | src/Utilities/UserContextBuilder.swift:19-25 | the window's mood fetch is empty exactly when no stored entry is in the window; its last entry is stored, in the window and the newest |
| UserContextBuilder.LastIsNewest | src/Utilities/UserContextBuilder.swift:43 | the last entry of a list sorted oldest first is dated no earlier than any of them |
| UserContextBuilder.PositiveAverage | src/Utilities/UserContextBuilder.swift:39 | an average of positive values is positive |
| AppViewModel.AppViewModel.constructor | src/ViewModels/AppViewModel.swift:35-49 | starts signed out, with no store, not loading, no error and the stored session email |
| AppViewModel.AppViewModel.CheckAuthenticationStatus | src/ViewModels/AppViewModel.swift:42-49 | with a stored session email whose user exists, that user is signed in; otherwise nothing changes |
| AppViewModel.AppViewModel.LoadUser | src/ViewModels/AppViewModel.swift:52-70 | the first stored user with the email becomes current and the session authenticated; with none, or no store, nothing changes |
| AppViewModel.AppViewModel.SignInWithGoogle | src/ViewModels/AppViewModel.swift:76-127 | no store: "Datenbank nicht verfügbar" and nothing else. An existing email: that user becomes current, nothing is created, and the session is stored and authenticated. A new email: `NewAccount`. Loading is off on every exit |
| AppViewModel.AppViewModel.CreateAccount | src/ViewModels/AppViewModel.swift:103-113 | exactly one user with the email and name is appended. A failed save stops there with the error. Otherwise the user is current, exactly one default settings record is appended, and the session is stored unless that save fails |
| AppViewModel.AppViewModel.CreateSettings | src/ViewModels/AppViewModel.swift:110-117 | exactly one fresh default settings record is appended; a failed save reports, otherwise the session email is stored and the session authenticated |
| AppViewModel.AppViewModel.SignOut | src/ViewModels/AppViewModel.swift:130-134 | the session email is removed, nobody is current and the session is not authenticated |
| AppViewModel.AppViewModel.UpdateUserProfile | src/ViewModels/AppViewModel.swift:160-174 | no current user: nothing changes. Otherwise age, weight, height and gender take the new values and the update time is now; email, name and entries are kept. A failed save with a store is reported |
| AppViewModel.AddingNewEmailKeepsUnique | src/ViewModels/AppViewModel.swift:99-105 | appending a user whose email no stored user has keeps the emails unique, and a later sign-in with it finds a user |
| HomeView.Greeting | src/Views/Home/HomeView.swift:90-101 | "Guten Morgen" exactly for hours 0-11, "Guten Tag" exactly for 12-17, "Guten Abend" for every other hour: always one of the three |
| HomeView.ShownMetrics | src/Views/Home/HomeView.swift:185-216 | each metric shows its value, or 0 when absent |
| HomeView.GridShowsManualValue | src/Views/Home/HomeView.swift:190-195 | after a manual steps edit the grid shows the edited value, also after a later sync |
| HomeView.RecentActivityOf | src/Views/Home/HomeView.swift:325-334 | the placeholder exactly when there are no recent entries; otherwise the first five (all when fewer), never more than five |
| HomeView.HomeListsFiveNewest | src/Views/Home/HomeView.swift:325-334 | once the 30 most recent entries are loaded, the home screen lists the five newest stored entries, or the placeholder when the store has none |

## Left out

- **HealthKit.** The queries and their asynchronous calls are not modelled;
  the sync receives their outcome as a parameter. Requesting HealthKit and
  notification permissions after sign-in is not modelled either.
  `loadWeeklyStepsData` only stores a HealthKit result, so it is left out
  with the queries.
- **Other sources.** Notifications, the SwiftUI views other than the
  home-screen logic, the widgets and Live Activity, the `Chatbot` record and
  `AppTheme` are not part of this model.
- **Asynchrony.** `async`/`await`, the simulated one-second sign-in delay,
  `@MainActor` and `objectWillChange` are not modelled. Every operation runs
  to completion on its own.
- **Calendar arithmetic.** Seven or `days` days before now is
  `now - days * 86400` (`Persistence.WindowStart`), and the start of today is
  `now` rounded down to a multiple of 86400 (`Persistence.StartOfDay`).
  Time zones, daylight saving time and calendar rules are not modelled.
- **Fetch failures.** A failing fetch (as opposed to a failing save) is not
  modelled in `loadTodayHealthData`, `loadTodayMoodEntry`,
  `loadRecentMoodEntries`, `loadUser`, `loadHealthDataForRange` or
  `buildContext`. They behave as if the fetch succeeded. A failed Apple
  Health fetch is modelled.
- **Text rendering.** `buildContext` is modelled by the variable parts of its
  text (`UserContextBuilder.UserContext`). Its fixed template lines, the
  `String(format:)` decimal rendering, and the "kg"/"cm" suffixes are not
  modelled.
- **Relationship arrays.** `context.delete` is not mirrored in the user's
  `moodEntries` array or the cascade delete rules.
- MoodViewModel.MostFrequentMood: among tied moods the model picks the first
  in declaration order, where the source picks whichever its dictionary
  yields first. The contract states only what both share: no mood of the
  window outnumbers the chosen one.
- AppViewModel.AppViewModel.SignInWithGoogle: its contract does not repeat
  that the store's emails stay unique. That is stated for the user it
  appends by `AppViewModel.AddingNewEmailKeepsUnique`.
- **Health-screen functions.** `HealthViewModel.HealthViewModel` models the
  four weekly averages but not the `weeklyStepsData` and
  `weeklyCaloriesData` chart arrays, which no modelled operation fills.
