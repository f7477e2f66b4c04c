# Credify gamification core in Dafny

Credify is a personal tracker for money, health and mindfulness. Users log
expenses, workouts, water, meals, meditations, journal entries, gratitude
notes and moods. The app rewards them with XP and levels, and shows their
activity on a streak calendar. This project models the four sequential
pieces of the app and proves properties about them:

- **Leveling** (`leveling.dfy`): `calculateLevel`, which maps total XP to a
  level, a title, the progress within the level and the XP still needed. It
  scans the level table in `gamification.dfy`, which also holds the XP
  rewards, the achievement catalogue, the daily-challenge templates and the
  category tables.
- **The app-state reducer** (`reducer.dfy`): `appReducer` as the pure function
  `Reduce(state, action)` over the closed action type built in `types.dfy`,
  together with the initial state.
- **The streak calendar** (`streak_calendar.dfy`), with four parts:
  - the per-date activity summary, built in place as a map by five passes
    over the record collections;
  - the current-streak and longest-streak scans;
  - the week grid;
  - the intensity buckets.
- **The SQLite store** (`database.dfy`): a `Store` class with one map per
  table, keyed by primary key. Its operations are `logWater`, `resetAllData`,
  `getSetting`/`saveSetting`, `saveUser` and `importData`:
  - the backup is checked before the wipe;
  - the replay loops follow the backup's order and stop at the first failing
    statement;
  - the default and normalisation rules of `loadAppState` are modelled too.

Dates are integer day numbers: day 0 is Thursday 1970-01-01, and the weekday
is `(d + 4) % 7` with 0 = Sunday. The date-fns steps `subDays` and `addDays`
become `- 1` and `+ 1`. Each clock reading `new Date()` is a `today`
parameter.

The activity summary behind the streak calendar counts records:

- The summary's `count` adds one per expense, workout, meditation and
  journal record, plus one per water log with glasses > 0. It does not add
  one per kind of record present.
- Gratitude logs, moods and meals are never counted.

## Model

| member | source | states |
|---|---|---|
| Gamification.LevelsWellFormed | src/constants/gamification.ts:30-43 | The level table has 12 entries numbered 1..12. Its thresholds start at 0, end at 15000 and strictly increase, which the early `break` of calculateLevel relies on. |
| Gamification.RewardsPositive | src/constants/gamification.ts:4-27 | Every XP reward is a positive integer. |
| Gamification.AchievementsWellFormed | src/constants/gamification.ts:47-159 | There are 13 achievements. Each one's id equals its key and its XP reward is positive, no key occurs twice, and firstExpense is worth 25. Each category is one of the four of the `AchievementCategory` datatype, which holds by typing. |
| Gamification.TemplatesWellFormed | src/constants/gamification.ts:162-178 | Each challenge category has exactly three templates, and the nine template ids are pairwise distinct. |
| Gamification.OptionTablesDistinct | src/constants/gamification.ts:181-211 | The ids inside the expense-category, workout-type and mood tables are pairwise distinct. |
| Leveling.IndexFrom | src/context/AppContext.tsx:56-63 | On any table, the row found searching down from row i is at most i. It is reached (or is row 0), and every row above it up to i has a threshold above xp. |
| Leveling.CalculateLevel | src/context/AppContext.tsx:51-75 | Running the scan on the game's level table returns exactly LevelOf(xp): the last reached row's level and title, the progress ratio (1 when the next threshold is not higher), and the next threshold minus xp. |
| Leveling.ScanLevels | src/context/AppContext.tsx:51-75 | On any ascending table of at least two rows, the forward scan with its early break returns the progress of the row IndexFrom finds from the bottom of the table. |
| Leveling.ScanStopsAtRow | src/context/AppContext.tsx:56-63 | When the scan has accepted rows 0..i-1 and row i is not reached, the current row is i - 1, or row 0 when i is 0. |
| Leveling.IndexFromIs | src/context/AppContext.tsx:56-63 | The downward search from row i returns k whenever k is reached (or is row 0) and every row between k and i lies above xp. |
| Leveling.LevelIsLastReachedRow | src/context/AppContext.tsx:56-63 | For xp >= 0, the level and title are those of the row whose threshold is at most xp while the next row's threshold is above xp. |
| Leveling.LevelMonotone | src/context/AppContext.tsx:56-63 | For 0 <= x <= y, level(x) <= level(y). |
| Leveling.BelowTopBounds | src/context/AppContext.tsx:65-74 | For 0 <= xp < 15000: a next row exists, progress is (xp - cur.minXP)/(next.minXP - cur.minXP) and lies in [0, 1), and xpToNext > 0. |
| Leveling.RowBelowTop | src/context/AppContext.tsx:65-74 | On any table, for a row that is reached while the next is not, progress is the exact ratio, lies in [0, 1), and xpToNext > 0. |
| Leveling.AtTopBounds | src/context/AppContext.tsx:65-74 | For xp >= 15000: level 12 "Immortal", progress exactly 1 (no division), and xpToNext <= 0. |
| Leveling.LevelOfZero | src/context/AppContext.tsx:65-74 | calculateLevel(0) is level 1 "Beginner" with progress 0 and 100 XP to go. |
| Reducer.AddGlasses | src/context/AppContext.tsx:192-200 | Per index: the length is kept, logs of the payload's date gain its glasses, and other logs are unchanged. |
| Reducer.WithoutExpense | src/context/AppContext.tsx:133-141 | The filter never lengthens the list, and an expense survives iff it was there and its id differs. |
| Reducer.FindBudget | src/context/AppContext.tsx:142-155 | The result is the first index whose category matches, or -1 exactly when none matches. |
| Reducer.MarkCompleted | src/context/AppContext.tsx:262-268 | Per index: the length is kept, challenges with the id get completed := true, and the others are unchanged. |
| Reducer.ReplaceGoal | src/context/AppContext.tsx:166-176 | Per index: the length is kept, goals with the payload's id become the payload, and the others are unchanged. |
| Reducer.AddXPSpec | src/context/AppContext.tsx:83-94 | With no user ADD_XP is a no-op. Otherwise totalXP grows by the amount, level = calculateLevel(new total).level, and every other field of the user and the state is unchanged. |
| Reducer.AddXPNeverLowersLevel | src/context/AppContext.tsx:83-94 | Granting non-negative XP to a user whose level matches their XP keeps them matched and never lowers the level. |
| Reducer.ActionsKeepLevelConsistent | src/context/AppContext.tsx:78-282 | Every action except SET_USER and LOAD_STATE preserves "stored level = level of stored XP". |
| Reducer.UnlockAchievementSpec | src/context/AppContext.tsx:96-105 | UNLOCK_ACHIEVEMENT leaves the state alone if the id is present or there is no user, and otherwise appends the id once. XP and level never change, the list stays duplicate-free, and unlocking twice equals unlocking once. |
| Reducer.PrependActionsSpec | src/context/AppContext.tsx:124-256 | ADD_EXPENSE, ADD_WORKOUT, ADD_MEAL, ADD_MEDITATION, ADD_JOURNAL, ADD_GRATITUDE and ADD_MOOD put the payload in front of its list, with the old list as tail. Nothing else in the state changes. |
| Reducer.GoalActionsSpec | src/context/AppContext.tsx:157-176 | ADD_FINANCIAL_GOAL appends. UPDATE_FINANCIAL_GOAL keeps the length and replaces exactly the goals with the payload's id. Neither action changes anything but the goals list. |
| Reducer.WithoutExpenseConcat | src/context/AppContext.tsx:133-141 | The delete filter distributes over concatenation, so the kept expenses stay in order. |
| Reducer.WithoutExpenseCounts | src/context/AppContext.tsx:133-141 | After the filter, an expense occurs 0 times if it carries the id, and as often as before otherwise. |
| Reducer.DeleteExpenseSpec | src/context/AppContext.tsx:133-141 | DELETE_EXPENSE removes exactly the expenses with that id and keeps the others' multiplicity. It changes nothing but the expenses list, and deleting twice equals deleting once. |
| Reducer.WithoutExpenseIdempotent | src/context/AppContext.tsx:133-141 | Filtering an already filtered list changes nothing. |
| Reducer.LogWaterSpec | src/context/AppContext.tsx:187-210 | If the date has a log: same length, and logs of that date gain the glasses while the others are unchanged. Otherwise the payload is prepended. Nothing outside the water logs changes. |
| Reducer.LogWaterKeepsDatesUnique | src/context/AppContext.tsx:187-210 | LOG_WATER keeps at most one log per date. |
| Reducer.ActionsKeepWaterDatesUnique | src/context/AppContext.tsx:78-282 | Every action except LOAD_STATE keeps at most one water log per date. |
| Reducer.HasWaterOnCons | src/context/AppContext.tsx:189 | The `find` by date succeeds on a list iff it matches the head or succeeds on the tail. |
| Reducer.UniqueWaterDatesTail | src/context/AppContext.tsx:187-210 | With unique dates, the tail has unique dates and does not contain the head's date. |
| Reducer.AddGlassesTotals | src/context/AppContext.tsx:192-200 | With unique dates, the map raises the payload date's glasses total by the payload's glasses (when that date has a log) and no other date's total. |
| Reducer.LogWaterAddsGlasses | src/context/AppContext.tsx:187-210 | With unique dates, LOG_WATER raises the payload date's total by exactly its glasses, whether it updates or prepends, and leaves every other date's total alone. |
| Reducer.SetBudgetSpec | src/context/AppContext.tsx:142-155 | When some budget has the payload's category, SET_BUDGET overwrites the FIRST such budget at its index and keeps the length. When none has it, the payload is appended. The payload is in the result, "one budget per category" is preserved, and nothing but the budgets list changes. |
| Reducer.CompleteChallengeSpec | src/context/AppContext.tsx:262-268 | COMPLETE_CHALLENGE marks exactly the challenges with that id and keeps the length. It is idempotent, and the rest of the state is unchanged. |
| Reducer.UpdateSettingsSpec | src/context/AppContext.tsx:270-274 | UPDATE_SETTINGS takes each key the patch carries and keeps the others. An empty patch is a no-op, and a patch applied twice equals one application. |
| Reducer.LoadStateSpec | src/context/AppContext.tsx:276-277 | LOAD_STATE replaces wholesale each top-level part the payload carries, keeps the rest, and always clears isLoading. |
| Reducer.SettersSpec | src/context/AppContext.tsx:80-122 | SET_USER, SET_LOADING and SET_DAILY_CHALLENGES overwrite their part. For each of the four keys, UPDATE_STREAK on an existing user sets the counter that key names to the value. It keeps the other three counters, lastActivityDate, the rest of the user and the rest of the state, and is a no-op without a user. |
| StreakCalendar.SummaryAddExpense | src/components/gamification/StreakCalendar.tsx:47-52 | One more expense raises its date's expenses and count by one and no other date. |
| StreakCalendar.SummaryAddWorkout | src/components/gamification/StreakCalendar.tsx:54-59 | One more workout raises its date's workouts and count by one. |
| StreakCalendar.SummaryAddWater | src/components/gamification/StreakCalendar.tsx:61-68 | One more water log overwrites its date's water with its glasses, and adds one to count only when the glasses are positive. |
| StreakCalendar.SummaryAddMeditation | src/components/gamification/StreakCalendar.tsx:70-75 | One more meditation raises its date's meditations and count by one. |
| StreakCalendar.SummaryAddJournal | src/components/gamification/StreakCalendar.tsx:77-82 | One more journal raises its date's journals and count by one. |
| StreakCalendar.ActivityByDate | src/components/gamification/StreakCalendar.tsx:29-85 | The keys are exactly the dates of expense, workout, water, meditation and journal records. For every date: the per-kind counters are the number of records of that kind on that date, water is the last log's glasses, and count is their sum. |
| StreakCalendar.TallyExpenses | src/components/gamification/StreakCalendar.tsx:47-52 | The expenses pass from the empty map yields the summary of the expenses alone. |
| StreakCalendar.TallyWorkouts | src/components/gamification/StreakCalendar.tsx:54-59 | The workouts pass turns the summary of the expenses into the summary of expenses and workouts. |
| StreakCalendar.TallyWater | src/components/gamification/StreakCalendar.tsx:61-68 | The water pass adds the water logs to the summary. |
| StreakCalendar.TallyMeditations | src/components/gamification/StreakCalendar.tsx:70-75 | The meditations pass adds the meditations to the summary. |
| StreakCalendar.TallyJournals | src/components/gamification/StreakCalendar.tsx:77-82 | The journals pass adds the journals to the summary. |
| StreakCalendar.ActiveDatesAddExpense | src/components/gamification/StreakCalendar.tsx:47-52 | Appending one expense adds exactly its date to the active dates. |
| StreakCalendar.TallyExpenseStep | src/components/gamification/StreakCalendar.tsx:47-52 | One expense counted into a map that holds the summary of a prefix gives the summary of the prefix with that expense. |
| StreakCalendar.CountExpense | src/components/gamification/StreakCalendar.tsx:47-52 | Creating the expense's day if missing and updating its counters turns the summary of a prefix into the summary of the prefix with that expense. |
| StreakCalendar.ActiveDatesAddWorkout | src/components/gamification/StreakCalendar.tsx:54-59 | Appending one workout adds exactly its date to the active dates. |
| StreakCalendar.TallyWorkoutStep | src/components/gamification/StreakCalendar.tsx:54-59 | One workout counted into a map that holds the summary of a prefix gives the summary of the prefix with that workout. |
| StreakCalendar.CountWorkout | src/components/gamification/StreakCalendar.tsx:54-59 | Creating the workout's day if missing and updating its counters turns the summary of a prefix into the summary of the prefix with that workout. |
| StreakCalendar.ActiveDatesAddWater | src/components/gamification/StreakCalendar.tsx:61-68 | Appending one water log adds exactly its date to the active dates. |
| StreakCalendar.TallyWaterStep | src/components/gamification/StreakCalendar.tsx:61-68 | One water log counted into a map that holds the summary of a prefix gives the summary of the prefix with that water log (the glasses replace the day's water, and the day counts only when glasses > 0). |
| StreakCalendar.CountWater | src/components/gamification/StreakCalendar.tsx:61-68 | Creating the water log's day if missing and updating its counters turns the summary of a prefix into the summary of the prefix with that water log. |
| StreakCalendar.ActiveDatesAddMeditation | src/components/gamification/StreakCalendar.tsx:70-75 | Appending one meditation adds exactly its date to the active dates. |
| StreakCalendar.TallyMeditationStep | src/components/gamification/StreakCalendar.tsx:70-75 | One meditation counted into a map that holds the summary of a prefix gives the summary of the prefix with that meditation. |
| StreakCalendar.CountMeditation | src/components/gamification/StreakCalendar.tsx:70-75 | Creating the meditation's day if missing and updating its counters turns the summary of a prefix into the summary of the prefix with that meditation. |
| StreakCalendar.ActiveDatesAddJournal | src/components/gamification/StreakCalendar.tsx:77-82 | Appending one journal adds exactly its date to the active dates. |
| StreakCalendar.TallyJournalStep | src/components/gamification/StreakCalendar.tsx:77-82 | One journal counted into a map that holds the summary of a prefix gives the summary of the prefix with that journal. |
| StreakCalendar.CountJournal | src/components/gamification/StreakCalendar.tsx:77-82 | Creating the journal's day if missing and updating its counters turns the summary of a prefix into the summary of the prefix with that journal. |
| StreakCalendar.WaterContribution | src/components/gamification/StreakCalendar.tsx:61-68 | With one water log per date, water adds exactly 1 to a date's count when that date's glasses are positive, and 0 otherwise. |
| StreakCalendar.NoLaterLogOfDate | src/components/gamification/StreakCalendar.tsx:61-68 | Logs that carry no log of a date contribute neither count nor glasses to it. |
| StreakCalendar.CountDecomposition | src/components/gamification/StreakCalendar.tsx:47-82 | With one water log per date: count = expenses + workouts + meditations + journals + (1 if water > 0). |
| StreakCalendar.ZeroGlassesDay | src/components/gamification/StreakCalendar.tsx:61-68 | A water log with 0 glasses creates an entry, hence a day in totalActiveDays, whose count is 0. |
| StreakCalendar.KeyRange | src/components/gamification/StreakCalendar.tsx:116-118 | The first and last of the sorted keys are their minimum and maximum, and both are keys. |
| StreakCalendar.CurrentStreak | src/components/gamification/StreakCalendar.tsx:96-113 | Today is skipped if inactive. The result is the length of the run of active days ending at today, or at yesterday when today is skipped. The run stops at an inactive day unless the 365-day ceiling stops it first, so current + skip <= 365. |
| StreakCalendar.RunEndingAtBound | src/components/gamification/StreakCalendar.tsx:124-133 | The running counter bounds every active run that ends at the day just scanned. |
| StreakCalendar.RunWithinKeys | src/components/gamification/StreakCalendar.tsx:116-118 | A non-empty active run starts and ends on dates with an entry, so it lies between the first and last key. |
| StreakCalendar.LongestStreak | src/components/gamification/StreakCalendar.tsx:115-136 | The result is the maximum length of a run of consecutive active days: every run is no longer, one run has exactly that length, and it is 0 with no keys. |
| StreakCalendar.ComputeStreakStats | src/components/gamification/StreakCalendar.tsx:88-143 | The contract of the current streak, the maximal run for the longest streak, and totalActiveDays = number of dates with an entry. |
| StreakCalendar.StartOfWeek | src/components/gamification/StreakCalendar.tsx:149 | The result is the Sunday within the 7 days ending at d. |
| StreakCalendar.BuildWeeks | src/components/gamification/StreakCalendar.tsx:151-173 | `weeks` rows (none if weeks <= 0) of exactly 7 days. Row w, column k holds the entry of firstDay + 7w + k, or an all-zero record. |
| StreakCalendar.CalendarData | src/components/gamification/StreakCalendar.tsx:146-176 | As written: `weeks` rows of 7 consecutive days from the Sunday on or before today - (7·weeks - 1). Days without entry get an all-zero record. |
| StreakCalendar.GridMissesToday | src/components/gamification/StreakCalendar.tsx:146-149 | The grid as written ends on today - weekday(today + 1), which is today iff today is a Saturday. |
| StreakCalendar.GridMissesTodayExample | src/components/gamification/StreakCalendar.tsx:146-149 | On Thursday day 0 a one-week grid starts at day -11 and ends at day -5. |
| StreakCalendar.CalendarDataThroughToday | src/components/gamification/StreakCalendar.tsx:146-176 | Corrected grid: the same shape, with the last row as the week containing today, and today in it at column weekday(today). |
| StreakCalendar.GridThroughTodayShape | src/components/gamification/StreakCalendar.tsx:146-149 | The corrected grid starts on a Sunday, ends on the Saturday on or after today, and so contains today. |
| StreakCalendar.GridStartShape | src/components/gamification/StreakCalendar.tsx:146-149 | The grid as written starts on a Sunday within the 7 days ending at today - (7·weeks - 1). |
| StreakCalendar.IntensityBuckets | src/components/gamification/StreakCalendar.tsx:179-185 | The colour changes between count c and c + 1 exactly when c is 0, 2, 5 or 10. A count of 0 gives the surface colour, and any count above 10 gives the full colour. |
| StreakCalendar.IntensityMonotone | src/components/gamification/StreakCalendar.tsx:179-185 | The bucket rank does not decrease as count grows. |
| Database.FreshKeysCons | src/lib/database.ts:299-305 | Keys of a row list are fresh iff the head's key is new and the tail's keys are fresh once the head is inserted. |
| Database.ReplayInsertsKeys | src/lib/database.ts:556-629 | Replaying plain INSERTs never changes existing rows. It succeeds iff the rows' keys are new and pairwise distinct. On success every row is stored under its key and the table grows by the number of rows. |
| Database.LogWaterStep | src/lib/database.ts:357-377 | If the date has a row, every row of that date gains the glasses and nothing is inserted. Otherwise exactly one row (the log) is inserted. It fails only on an id clash for a new date. The UNIQUE date column is kept and no row changes date. |
| Database.ReplayWaterSums | src/lib/database.ts:589-594 | Replaying logs keeps one row per date. Each row's glasses grow by the summed glasses of its date, and a row exists for a date iff one existed or a replayed log carries that date. |
| Database.ImportedWaterMerges | src/lib/database.ts:589-594 | After the reset, imported logs that share a date merge into one row holding the sum of their glasses. |
| Database.SettingReadAfterWrite | src/lib/database.ts:273-291 | After writing v under k, reading k gives v, or null when v is empty. Every other key reads as before, and a read never yields an empty string. |
| Database.SettingsLastWriteWins | src/lib/database.ts:631-636 | Replaying settings pairs stores every key of the pairs, with the value of the last pair for that key. Untouched keys keep their value. |
| Database.LoadedDefaultsAreInitial | src/lib/database.ts:449-508 | With no settings stored, the loaded values are the defaults: goals 8/2000/10000/10, budget 0, currency "$", theme "dark", style "modern", mode "all". These equal the reducer's initial state. |
| Database.StreakModeNormalised | src/lib/database.ts:473-476 | The streak mode loads as `any` iff "any" is stored. Any other value, an empty one or none gives `all`. |
| Database.LoadSettingsIgnores | src/lib/database.ts:449-508 | An empty stored value loads like a missing one, and a key other than the nine read changes nothing. |
| Database.LoadSettingsAgree | src/lib/database.ts:449-508 | Two settings tables that agree on the nine keys read load to the same settings. |
| Database.ImportKeepsWaterValid | src/lib/database.ts:542-643 | Whichever step an import stops at, the water table still has one row per date. |
| Database.ImportValidatesBeforeWipe | src/lib/database.ts:544-554 | A document that fails the format check is rejected and leaves the store unchanged. An accepted one yields a store that does not depend on what was there before. |
| Database.CompleteImportContents | src/lib/database.ts:542-643 | A complete import holds the backup's user, every expense under its id and no other, one water row per backup date holding the summed glasses, and the replayed settings. Its budgets and goals hold exactly the backup's ids, each with the last row carrying it. |
| Database.HeadWrites | src/lib/database.ts:556-587 | When the user, expense, budget, goal and workout sections succeed, the users table holds just the backup's user. The expenses table is the replay of the backup's expenses by id, and budgets and goals are saved into empty tables. The water and settings tables are still empty. |
| Database.HealthWrites | src/lib/database.ts:589-601 | When the water and meal sections succeed, users, expenses, budgets, goals and settings are unchanged. The water table is the replay of the backup's water logs, summed per date. |
| Database.MindfulnessWrites | src/lib/database.ts:603-636 | When the meditation, journal, gratitude, mood and settings sections succeed, users, expenses, budgets, goals and water are unchanged. The settings table is the replay of the backup's settings. |
| Database.DuplicateExpenseAborts | src/lib/database.ts:561-566 | A backup with a repeated expense id aborts after the reset. Only the user and the first copy are written, and no water or settings rows. |
| Database.ImportRestoresDisplaySettingsOnly | src/lib/database.ts:449-508 | Restored theme, style and streak mode load back. The water goal, budget and currency kept in the backup's state sections load as defaults. |
| Database.InsertAll | src/lib/database.ts:561-566 | The INSERT loop computes exactly ReplayInserts: it stops at the first taken key. |
| Database.SaveAll | src/lib/database.ts:568-580 | The INSERT OR REPLACE loop computes exactly ReplaySaves, which ReplaySavesLastWriteWins characterises. |
| Database.ReplaySavesLastWriteWins | src/lib/database.ts:568-580 | INSERT OR REPLACE row by row never fails. Every row's id is stored, holding the last row with that id, and ids no row carries keep their old value. |
| Database.SavesFromEmpty | src/lib/database.ts:568-580 | Saving rows into an empty table leaves exactly the rows' ids, each holding the last row with that id. |
| Database.LogWaterAll | src/lib/database.ts:589-594 | The logWater loop computes exactly ReplayWater: it stops at the first failure. |
| Database.SaveSettings | src/lib/database.ts:631-636 | The saveSetting loop computes exactly ReplaySettings. |
| Database.Store.constructor | src/lib/database.ts:95-231 | A fresh database has every table empty. |
| Database.Store.SaveUser | src/lib/database.ts:257-271 | INSERT OR REPLACE of the user row by id; only the user table changes. |
| Database.Store.SaveSetting | src/lib/database.ts:283-291 | The key is set to the value (last write wins). Reading it back gives the value, or null if it is empty, and other keys read as before. |
| Database.Store.LogWater | src/lib/database.ts:357-377 | The table becomes LogWaterRows(old, log), or stays unchanged with ok = false on an id clash. A valid water table stays valid. |
| Database.Store.ResetAllData | src/lib/database.ts:511-528 | Every table is emptied, user and settings included. |
| Database.Store.ImportData | src/lib/database.ts:542-643 | The new store and outcome are ImportSpec(old store, doc): format check first, then reset, then the replay in the source's order, stopping at the first failure. Water validity is preserved. |
| Database.Store.ReplayHead | src/lib/database.ts:556-587 | Replaying user, expenses, budgets, goals and workouts into the emptied store gives ImportHead. |
| Database.Store.ReplayHealth | src/lib/database.ts:589-601 | Replaying water logs, then meals, gives ImportHealth. |
| Database.Store.ReplayMindfulness | src/lib/database.ts:603-636 | Replaying meditations, journals, gratitude logs, moods and settings gives ImportMindfulness. |

## Left out

- Screens, components and the context provider's async work are not modelled. This covers loading and saving through the provider, its debounce timer, the `initDatabase` singleton and the schema migration. They are rendering, I/O and timing, not logic.
- JSON parsing and stringifying, and `exportAllData`, are not modelled. The backup's `financial`, `health` and `mindfulness` sections are flattened into one optional field per collection, so a missing section is a set of missing collections. A backup that does not parse is `None`, and one that parses is a `BackupDocument`. The values of the settings object are given as strings, so `String(value)` is not modelled.
- `parseInt`, `parseFloat` and floating point are not modelled. The parsers are function parameters of `LoadSettings`. Progress is an exact `real` ratio.
- Database.Accepted: it treats `version` as an optional string that must be non-empty. JavaScript values of `version` that are neither a string nor null, such as numbers or booleans, are not modelled.
- date-fns, time zones and the millisecond `Math.ceil` in the longest-streak loop are not modelled. Dates are integer day numbers, so the day count is `last - first + 1`.
- `Object.keys(...).sort()` is not modelled as a sort. StreakCalendar.KeyRange computes the minimum and maximum key instead, which are the only sorted positions read, plus the key count.
- The reducer's `default:` case is absent because the action type is closed.
- UPDATE_STREAK takes only the four numeric streak keys. Its `lastActivityDate` key would receive a number, and nothing dispatches the action.
- `cleanupOldChallenges` is called by the provider but defined nowhere, so it is not modelled.
- Achievement evaluation, challenge generation and evaluation, and streak updating are not modelled: the code does not implement them. The achievement and challenge tables are constant data only.
- `getUser`, `deleteExpense` and the record queries (`getExpenses`, ... with their ORDER BY) are not modelled. The import replay models the single-row `add*`/`save*` statements through ReplayInserts and ReplaySaves. There is no Store method per statement.
- No export/import round trip is proved. Achievements are not stored, and the goals kept in the state sections are not re-saved as settings, as Database.ImportRestoresDisplaySettingsOnly shows.
- SQL NOT NULL and type constraints are not modelled. Only primary keys and the UNIQUE date of water_logs are, since they decide which statements fail.
- Leveling.LevelMonotone: it requires xp >= 0. calculateLevel does not clamp negative XP and returns negative progress, which CalculateLevel models unchanged.
- StreakCalendar.CalendarData: the `isToday` highlight in rendering is UI and is not modelled.

## Findings

| source | as written | input that shows it | evidently intended | confidence | as-written member | corrected member |
|---|---|---|---|---|---|---|
| src/components/gamification/StreakCalendar.tsx:146-149 | The grid starts on the Sunday on or before today - (7·weeks - 1) and spans 7·weeks days, so its last day is today - weekday(today + 1). It shows today only when today is a Saturday. | today = Thursday 1970-01-01 (day 0), weeks = 1: the grid shows 1969-12-21 .. 1969-12-27 and not today, although rendering highlights today with `isToday`. | The last row is the current week, so today is always on the grid. | not executed | StreakCalendar.CalendarData, StreakCalendar.GridMissesToday | StreakCalendar.CalendarDataThroughToday |
