/** The SQLite store of src/lib/database.ts. Every table is a map from its
    primary key to its row; `Store` holds the twelve tables and changes them
    in place. A plain INSERT fails on a key already present, INSERT OR
    REPLACE overwrites it. */
module Database {
  import opened Types
  import opened Reducer

  /** A row of the `user` table: the achievements column no longer exists. */
  datatype StoredUser = StoredUser(id: string, name: string, createdAt: string, totalXP: int, level: int, streaks: Streaks)

  function Stored(u: User): StoredUser
  {
    StoredUser(u.id, u.name, u.createdAt, u.totalXP, u.level, u.streaks)
  }

  /** The contents of all tables at one moment. */
  datatype Tables = Tables(
    users: map<string, StoredUser>,
    expenses: map<string, Expense>,
    budgets: map<string, Budget>,
    goals: map<string, FinancialGoal>,
    workouts: map<string, Workout>,
    waterLogs: map<string, WaterLog>,
    meals: map<string, MealLog>,
    meditations: map<string, MeditationSession>,
    journals: map<string, JournalEntry>,
    gratitudeLogs: map<string, GratitudeLog>,
    moods: map<string, MoodEntry>,
    settings: map<string, string>)

  const EmptyTables: Tables := Tables(map[], map[], map[], map[], map[], map[], map[], map[], map[], map[], map[], map[])

  // ---------------------------------------------------------------------------
  // Row operations

  /** The outcome of replaying rows into a table: the table reached and
      whether every statement succeeded. */
  datatype Replayed<T> = Replayed(table: map<string, T>, ok: bool)

  /** Plain INSERT replayed row by row (addExpense, addWorkout, addMeal,
      addMeditation, addJournal, addGratitude, addMood): the first row whose
      key is taken fails, and the rows after it are not inserted. */
  function ReplayInserts<T>(t: map<string, T>, rows: seq<T>, key: T -> string): Replayed<T>
    decreases |rows|
  {
    if rows == [] then Replayed(t, true)
    else if key(rows[0]) in t then Replayed(t, false)
    else ReplayInserts(t[key(rows[0]) := rows[0]], rows[1..], key)
  }

  /** INSERT OR REPLACE replayed row by row (saveBudget, saveFinancialGoal): never fails. */
  function ReplaySaves<T>(t: map<string, T>, rows: seq<T>, key: T -> string): map<string, T>
    decreases |rows|
  {
    if rows == [] then t else ReplaySaves(t[key(rows[0]) := rows[0]], rows[1..], key)
  }

  /** The rows saved by INSERT OR REPLACE, as a table read afterwards: the
      keys are exactly those of the rows, and under each key the last row
      carrying it. */
  ghost predicate LastWrites<T>(m: map<string, T>, rows: seq<T>, key: T -> string)
  {
    && (forall k :: k in m <==> exists i :: 0 <= i < |rows| && key(rows[i]) == k)
    && (forall i :: 0 <= i < |rows| && (forall j :: i < j < |rows| ==> key(rows[j]) != key(rows[i])) ==>
          key(rows[i]) in m && m[key(rows[i])] == rows[i])
  }

  /** INSERT OR REPLACE row by row: every row's key is stored, under it the
      last row with that key, and the keys no row carries keep their value. */
  lemma {:induction false} ReplaySavesLastWriteWins<T>(t: map<string, T>, rows: seq<T>, key: T -> string)
    ensures forall k :: k in ReplaySaves(t, rows, key) <==> k in t || exists i :: 0 <= i < |rows| && key(rows[i]) == k
    ensures forall i :: 0 <= i < |rows| && (forall j :: i < j < |rows| ==> key(rows[j]) != key(rows[i])) ==>
      ReplaySaves(t, rows, key)[key(rows[i])] == rows[i]
    ensures forall k :: k in t && (forall i :: 0 <= i < |rows| ==> key(rows[i]) != k) ==>
      ReplaySaves(t, rows, key)[k] == t[k]
    decreases |rows|
  {
    if rows != [] {
      var tail := rows[1..];
      ReplaySavesLastWriteWins(t[key(rows[0]) := rows[0]], tail, key);
      assert forall i :: 0 < i < |rows| ==> rows[i] == tail[i - 1];
      forall k | k in ReplaySaves(t, rows, key) && k != key(rows[0]) && k !in t
        ensures exists i :: 0 <= i < |rows| && key(rows[i]) == k
      {
        var i :| 0 <= i < |tail| && key(tail[i]) == k;
        assert key(rows[i + 1]) == k;
      }
    }
  }

  /** Saving into an empty table leaves exactly the last write per key. */
  lemma SavesFromEmpty<T>(rows: seq<T>, key: T -> string)
    ensures LastWrites(ReplaySaves(map[], rows, key), rows, key)
  {
    ReplaySavesLastWriteWins(map[], rows, key);
  }

  function ExpenseKey(e: Expense): string { e.id }
  function BudgetKey(b: Budget): string { b.id }
  function GoalKey(g: FinancialGoal): string { g.id }
  function WorkoutKey(w: Workout): string { w.id }
  function MealKey(m: MealLog): string { m.id }
  function MeditationKey(m: MeditationSession): string { m.id }
  function JournalKey(j: JournalEntry): string { j.id }
  function GratitudeKey(g: GratitudeLog): string { g.id }
  function MoodKey(m: MoodEntry): string { m.id }

  /** No row's key is in `t`, and no two rows share a key. */
  ghost predicate FreshKeys<T>(t: map<string, T>, rows: seq<T>, key: T -> string)
  {
    && (forall i :: 0 <= i < |rows| ==> key(rows[i]) !in t)
    && (forall i, j :: 0 <= i < j < |rows| ==> key(rows[i]) != key(rows[j]))
  }

  lemma FreshKeysCons<T>(t: map<string, T>, rows: seq<T>, key: T -> string)
    requires rows != []
    ensures FreshKeys(t, rows, key) <==> key(rows[0]) !in t && FreshKeys(t[key(rows[0]) := rows[0]], rows[1..], key)
  {
    var tail := rows[1..];
    assert forall i :: 0 < i < |rows| ==> rows[i] == tail[i - 1];
    if key(rows[0]) !in t && FreshKeys(t[key(rows[0]) := rows[0]], tail, key) {
      forall i, j | 0 <= i < j < |rows| ensures key(rows[i]) != key(rows[j]) {
        assert rows[j] == tail[j - 1];
        if i > 0 {
          assert rows[i] == tail[i - 1];
        }
      }
    }
  }

  /** A replay of plain INSERTs succeeds exactly when the rows' keys are new
      and distinct; it never changes rows already there, and when it
      succeeds every row sits under its key. */
  lemma {:induction false} ReplayInsertsKeys<T>(t: map<string, T>, rows: seq<T>, key: T -> string)
    ensures var r := ReplayInserts(t, rows, key);
      && t.Keys <= r.table.Keys
      && (forall k :: k in t ==> r.table[k] == t[k])
      && (r.ok <==> FreshKeys(t, rows, key))
      && (r.ok ==> forall i :: 0 <= i < |rows| ==> key(rows[i]) in r.table && r.table[key(rows[i])] == rows[i])
      && (r.ok ==> |r.table| == |t| + |rows|)
    decreases |rows|
  {
    if rows != [] {
      FreshKeysCons(t, rows, key);
      var k0 := key(rows[0]);
      if k0 !in t {
        var tail := rows[1..];
        ReplayInsertsKeys(t[k0 := rows[0]], tail, key);
        var r := ReplayInserts(t, rows, key);
        assert r == ReplayInserts(t[k0 := rows[0]], tail, key);
        forall i | 0 <= i < |rows| && r.ok
          ensures key(rows[i]) in r.table && r.table[key(rows[i])] == rows[i]
        {
          if i > 0 {
            assert rows[i] == tail[i - 1];
          }
        }
      }
    }
  }

  // ---------------------------------------------------------------------------
  // water_logs

  /** The water table keeps rows under their ids, and its date column is UNIQUE. */
  ghost predicate WaterTableValid(t: map<string, WaterLog>)
  {
    && (forall k :: k in t ==> t[k].id == k)
    && (forall k1, k2 :: k1 in t && k2 in t && t[k1].date == t[k2].date ==> k1 == k2)
  }

  predicate HasRowOn(t: map<string, WaterLog>, d: Day)
  {
    exists k :: k in t && t[k].date == d
  }

  /** logWater on the table: with a row of that date, UPDATE adds the glasses
      to every row of the date; otherwise an INSERT of the log, which fails
      (None) when its id is taken. */
  function LogWaterRows(t: map<string, WaterLog>, log: WaterLog): Option<map<string, WaterLog>>
  {
    if HasRowOn(t, log.date) then
      Some(map k | k in t :: if t[k].date == log.date then t[k].(glasses := t[k].glasses + log.glasses) else t[k])
    else if log.id in t then None
    else Some(t[log.id := log])
  }

  /** What logWater does to a valid table: the date's row gains the glasses
      and nothing is inserted, or one row is inserted for a new date; the
      UNIQUE date column is kept, rows never change date, and only an id
      clash on a new date fails. */
  lemma LogWaterStep(t: map<string, WaterLog>, log: WaterLog)
    requires WaterTableValid(t)
    ensures LogWaterRows(t, log).None? <==> !HasRowOn(t, log.date) && log.id in t
    ensures LogWaterRows(t, log).Some? ==>
      var t1 := LogWaterRows(t, log).value;
      && WaterTableValid(t1)
      && t.Keys <= t1.Keys
      && (HasRowOn(t, log.date) ==> t1.Keys == t.Keys)
      && (!HasRowOn(t, log.date) ==> |t1| == |t| + 1 && log.id in t1 && t1[log.id] == log)
      && (forall k :: k in t ==>
            && t1[k].id == t[k].id && t1[k].date == t[k].date
            && t1[k].glasses == t[k].glasses + (if t[k].date == log.date then log.glasses else 0))
      && (forall k :: k in t1 && k !in t ==> t1[k] == log && !HasRowOn(t, log.date))
      && (forall d :: HasRowOn(t1, d) <==> HasRowOn(t, d) || d == log.date)
  {
    if HasRowOn(t, log.date) {
      var k0 :| k0 in t && t[k0].date == log.date;
      var t1 := LogWaterRows(t, log).value;
      assert t1[k0].date == log.date;
      forall d | HasRowOn(t1, d) ensures HasRowOn(t, d) {
        var k :| k in t1 && t1[k].date == d;
        assert t[k].date == d;
      }
      forall d | HasRowOn(t, d) ensures HasRowOn(t1, d) {
        var k :| k in t && t[k].date == d;
        assert t1[k].date == d;
      }
    } else if log.id !in t {
      var t1 := t[log.id := log];
      forall d | HasRowOn(t1, d) && d != log.date ensures HasRowOn(t, d) {
        var k :| k in t1 && t1[k].date == d;
        assert k != log.id;
      }
      forall d | HasRowOn(t, d) ensures HasRowOn(t1, d) {
        var k :| k in t && t[k].date == d;
        assert k != log.id;
        assert t1[k].date == d;
      }
      assert t1[log.id].date == log.date;
      assert forall k :: k in t ==> t[k].date != log.date;
      assert forall k :: k in t ==> t1[k] == t[k];
    }
  }

  /** logWater replayed log by log, stopping at the first failure. */
  function ReplayWater(t: map<string, WaterLog>, logs: seq<WaterLog>): Replayed<WaterLog>
    decreases |logs|
  {
    if logs == [] then Replayed(t, true)
    else match LogWaterRows(t, logs[0])
      case None => Replayed(t, false)
      case Some(t1) => ReplayWater(t1, logs[1..])
  }

  /** Replaying logs into a valid table: each row's glasses grow by the sum
      of the replayed glasses of its date, a row appears for each new date,
      and the date column stays UNIQUE. */
  lemma {:induction false} ReplayWaterSums(t: map<string, WaterLog>, logs: seq<WaterLog>)
    requires WaterTableValid(t)
    ensures WaterTableValid(ReplayWater(t, logs).table)
    ensures var r := ReplayWater(t, logs);
      r.ok ==>
        && t.Keys <= r.table.Keys
        && (forall k :: k in t ==> r.table[k].date == t[k].date)
        && (forall k :: k in r.table ==>
              r.table[k].glasses == (if k in t then t[k].glasses else 0) + GlassesOn(logs, r.table[k].date))
        && (forall k :: k in r.table && k !in t ==> !HasRowOn(t, r.table[k].date))
        && (forall d :: HasRowOn(r.table, d) <==> HasRowOn(t, d) || HasWaterOn(logs, d))
    decreases |logs|
  {
    if logs != [] {
      var log := logs[0];
      LogWaterStep(t, log);
      if LogWaterRows(t, log).Some? {
        var t1 := LogWaterRows(t, log).value;
        var tail := logs[1..];
        ReplayWaterSums(t1, tail);
        var r := ReplayWater(t, logs);
        assert r == ReplayWater(t1, tail);
        if r.ok {
          forall d ensures HasWaterOn(logs, d) <==> d == log.date || HasWaterOn(tail, d) {
            HasWaterOnCons(logs, d);
          }
          forall k | k in r.table
            ensures r.table[k].glasses == (if k in t then t[k].glasses else 0) + GlassesOn(logs, r.table[k].date)
          {
            var d := r.table[k].date;
            assert GlassesOn(logs, d) == (if log.date == d then log.glasses else 0) + GlassesOn(tail, d);
            if k !in t1 {
              assert HasRowOn(t1, log.date);
              assert d != log.date;
            }
          }
          forall k | k in r.table && k !in t ensures !HasRowOn(t, r.table[k].date) {
            if k !in t1 {
              assert !HasRowOn(t1, r.table[k].date);
            }
          }
        }
      }
    }
  }

  /** Logs replayed into an empty table (as importData does after the reset)
      merge by date: one row per date they carry, holding the sum of that
      date's glasses. */
  lemma ImportedWaterMerges(logs: seq<WaterLog>)
    ensures var r := ReplayWater(map[], logs);
      && WaterTableValid(r.table)
      && (r.ok ==> forall k :: k in r.table ==> r.table[k].glasses == GlassesOn(logs, r.table[k].date))
      && (r.ok ==>
        forall d :: HasRowOn(r.table, d) <==> HasWaterOn(logs, d))
  {
    ReplayWaterSums(map[], logs);
  }

  // ---------------------------------------------------------------------------
  // settings

  /** getSetting: the stored value, or null when the key is missing or its value is empty. */
  function Setting(settings: map<string, string>, key: string): Option<string>
  {
    if key in settings && settings[key] != "" then Some(settings[key]) else None
  }

  /** Reading after a write: the key written reads back the value, or null
      when the value is empty; every other key reads as before. A read never
      yields an empty string. */
  lemma SettingReadAfterWrite(t: map<string, string>, k: string, v: string, k2: string)
    ensures Setting(t[k := v], k2) == if k2 == k then (if v == "" then None else Some(v)) else Setting(t, k2)
    ensures Setting(t, k2) != Some("")
  {
  }

  /** INSERT OR REPLACE of settings pairs in order. */
  function ReplaySettings(t: map<string, string>, pairs: seq<(string, string)>): map<string, string>
    decreases |pairs|
  {
    if pairs == [] then t else ReplaySettings(t[pairs[0].0 := pairs[0].1], pairs[1..])
  }

  /** The settings written: every key of the pairs is stored, and under it
      the value of the last pair with that key. */
  lemma {:induction false} SettingsLastWriteWins(t: map<string, string>, pairs: seq<(string, string)>)
    ensures forall key :: key in ReplaySettings(t, pairs) <==> key in t || exists i :: 0 <= i < |pairs| && pairs[i].0 == key
    ensures forall i :: 0 <= i < |pairs| && (forall j :: i < j < |pairs| ==> pairs[j].0 != pairs[i].0) ==>
      ReplaySettings(t, pairs)[pairs[i].0] == pairs[i].1
    ensures forall key :: key in t && (forall i :: 0 <= i < |pairs| ==> pairs[i].0 != key) ==>
      ReplaySettings(t, pairs)[key] == t[key]
    decreases |pairs|
  {
    if pairs != [] {
      var tail := pairs[1..];
      SettingsLastWriteWins(t[pairs[0].0 := pairs[0].1], tail);
      assert forall i :: 0 < i < |pairs| ==> pairs[i] == tail[i - 1];
      forall key | key in ReplaySettings(t, pairs) && key != pairs[0].0 && key !in t
        ensures exists i :: 0 <= i < |pairs| && pairs[i].0 == key
      {
        var i :| 0 <= i < |tail| && tail[i].0 == key;
        assert pairs[i + 1].0 == key;
      }
    }
  }

  /** The app-level values read by loadAppState from the settings table. */
  datatype LoadedSettings = LoadedSettings(
    monthlyBudget: real,
    currency: string,
    dailyWaterGoal: int,
    dailyCalorieGoal: int,
    dailyStepGoal: int,
    meditationGoal: int,
    settings: AppSettings)

  /** The defaults and normalisation of loadAppState. `parseInt` and
      `parseFloat` stand for the JavaScript parsers; theme and style are
      cast, not checked. */
  function LoadSettings(settings: map<string, string>, parseInt: string -> int, parseFloat: string -> real): LoadedSettings
  {
    var budget := Setting(settings, "monthlyBudget");
    var currency := Setting(settings, "currency");
    var water := Setting(settings, "dailyWaterGoal");
    var calories := Setting(settings, "dailyCalorieGoal");
    var steps := Setting(settings, "dailyStepGoal");
    var meditation := Setting(settings, "meditationGoal");
    var theme := Setting(settings, "theme");
    var style := Setting(settings, "style");
    var mode := Setting(settings, "streakMode");
    LoadedSettings(
      if budget.Some? then parseFloat(budget.value) else 0.0,
      if currency.Some? then currency.value else "$",
      if water.Some? then parseInt(water.value) else 8,
      if calories.Some? then parseInt(calories.value) else 2000,
      if steps.Some? then parseInt(steps.value) else 10000,
      if meditation.Some? then parseInt(meditation.value) else 10,
      AppSettings(
        if mode == Some("any") then Any else All,
        if theme.Some? then theme.value else "dark",
        if style.Some? then style.value else "modern"))
  }

  /** The nine keys loadAppState reads. */
  predicate LoadedKey(k: string)
  {
    k in {"monthlyBudget", "currency", "dailyWaterGoal", "dailyCalorieGoal", "dailyStepGoal",
          "meditationGoal", "theme", "style", "streakMode"}
  }

  /** With nothing stored, the loaded values are those of the reducer's initial state. */
  lemma LoadedDefaultsAreInitial(parseInt: string -> int, parseFloat: string -> real)
    ensures var r := LoadSettings(map[], parseInt, parseFloat);
      && r.settings == InitialSettings
      && r.monthlyBudget == InitialState.financial.monthlyBudget
      && r.currency == InitialState.financial.currency
      && r.dailyWaterGoal == InitialState.health.dailyWaterGoal
      && r.dailyCalorieGoal == InitialState.health.dailyCalorieGoal
      && r.dailyStepGoal == InitialState.health.dailyStepGoal
      && r.meditationGoal == InitialState.mindfulness.meditationGoal
  {
  }

  /** The streak mode loaded is `any` exactly when "any" is stored; any
      other value, an empty one or none gives `all`. */
  lemma StreakModeNormalised(settings: map<string, string>, parseInt: string -> int, parseFloat: string -> real)
    ensures LoadSettings(settings, parseInt, parseFloat).settings.streakMode == Any
        <==> "streakMode" in settings && settings["streakMode"] == "any"
  {
  }

  /** loadAppState depends only on what getSetting returns for the nine keys it reads. */
  lemma LoadSettingsAgree(s1: map<string, string>, s2: map<string, string>, parseInt: string -> int, parseFloat: string -> real)
    requires forall key :: LoadedKey(key) ==> Setting(s1, key) == Setting(s2, key)
    ensures LoadSettings(s1, parseInt, parseFloat) == LoadSettings(s2, parseInt, parseFloat)
  {
    assert LoadedKey("monthlyBudget") && LoadedKey("currency") && LoadedKey("dailyWaterGoal");
    assert LoadedKey("dailyCalorieGoal") && LoadedKey("dailyStepGoal") && LoadedKey("meditationGoal");
    assert LoadedKey("theme") && LoadedKey("style") && LoadedKey("streakMode");
  }

  /** An empty stored value loads like a missing key, and keys other than
      the nine read change nothing. */
  lemma LoadSettingsIgnores(settings: map<string, string>, k: string, v: string, parseInt: string -> int, parseFloat: string -> real)
    ensures LoadSettings(settings[k := ""], parseInt, parseFloat) == LoadSettings(settings - {k}, parseInt, parseFloat)
    ensures !LoadedKey(k) ==> LoadSettings(settings[k := v], parseInt, parseFloat) == LoadSettings(settings, parseInt, parseFloat)
  {
    var cleared, removed := settings[k := ""], settings - {k};
    forall key ensures Setting(cleared, key) == Setting(removed, key) {
      if key != k {
        assert (key in cleared <==> key in removed) && (key in removed ==> cleared[key] == removed[key]);
      }
    }
    LoadSettingsAgree(cleared, removed, parseInt, parseFloat);
    if !LoadedKey(k) {
      var written := settings[k := v];
      forall key | LoadedKey(key) ensures Setting(written, key) == Setting(settings, key) {
        assert key != k;
      }
      LoadSettingsAgree(written, settings, parseInt, parseFloat);
    }
  }

  // ---------------------------------------------------------------------------
  // importData

  /** A backup's `data`: each collection may be absent, and an absent one is skipped. */
  datatype BackupData = BackupData(
    user: Option<User>,
    expenses: Option<seq<Expense>>,
    budgets: Option<seq<Budget>>,
    goals: Option<seq<FinancialGoal>>,
    workouts: Option<seq<Workout>>,
    waterLogs: Option<seq<WaterLog>>,
    meals: Option<seq<MealLog>>,
    meditations: Option<seq<MeditationSession>>,
    journals: Option<seq<JournalEntry>>,
    gratitudeLogs: Option<seq<GratitudeLog>>,
    moods: Option<seq<MoodEntry>>,
    settings: Option<seq<(string, string)>>)

  datatype BackupDocument = BackupDocument(version: Option<string>, data: Option<BackupData>)

  datatype ImportOutcome =
    | Imported   // returns true
    | Rejected   // throws before the reset: not parsable, or `data`/`version` missing
    | Aborted    // throws during the replay: a plain INSERT hit a taken key

  function Rows<T>(o: Option<seq<T>>): seq<T>
  {
    if o.Some? then o.value else []
  }

  /** The format check: the text parsed (`doc` is Some), and `data` and a
      non-empty `version` are present. */
  predicate Accepted(doc: Option<BackupDocument>)
  {
    doc.Some? && doc.value.data.Some? && doc.value.version.Some? && doc.value.version.value != ""
  }

  /** The first half of the replay into the emptied store: user, expenses,
      budgets, goals and workouts; false when an INSERT failed. */
  function ImportHead(d: BackupData): (Tables, bool)
  {
    var t0 := EmptyTables.(users := if d.user.Some? then map[d.user.value.id := Stored(d.user.value)] else map[]);
    var e := ReplayInserts(map[], Rows(d.expenses), ExpenseKey);
    var t1 := t0.(expenses := e.table);
    if !e.ok then (t1, false) else
    var t2 := t1.(budgets := ReplaySaves(map[], Rows(d.budgets), BudgetKey),
                  goals := ReplaySaves(map[], Rows(d.goals), GoalKey));
    var w := ReplayInserts(map[], Rows(d.workouts), WorkoutKey);
    (t2.(workouts := w.table), w.ok)
  }

  /** The health part of the replay, applied to the tables reached so far:
      water logs, then meals. */
  function ImportHealth(t: Tables, d: BackupData): (Tables, bool)
  {
    var wl := ReplayWater(t.waterLogs, Rows(d.waterLogs));
    var t4 := t.(waterLogs := wl.table);
    if !wl.ok then (t4, false) else
    var m := ReplayInserts(t.meals, Rows(d.meals), MealKey);
    (t4.(meals := m.table), m.ok)
  }

  /** The mindfulness part: meditations, journals, gratitude logs and moods,
      then the settings pairs. */
  function ImportMindfulness(t: Tables, d: BackupData): (Tables, bool)
  {
    var md := ReplayInserts(t.meditations, Rows(d.meditations), MeditationKey);
    var t6 := t.(meditations := md.table);
    if !md.ok then (t6, false) else
    var j := ReplayInserts(t.journals, Rows(d.journals), JournalKey);
    var t7 := t6.(journals := j.table);
    if !j.ok then (t7, false) else
    var g := ReplayInserts(t.gratitudeLogs, Rows(d.gratitudeLogs), GratitudeKey);
    var t8 := t7.(gratitudeLogs := g.table);
    if !g.ok then (t8, false) else
    var mo := ReplayInserts(t.moods, Rows(d.moods), MoodKey);
    var t9 := t8.(moods := mo.table);
    if !mo.ok then (t9, false) else
    (t9.(settings := ReplaySettings(t.settings, Rows(d.settings))), true)
  }

  /** The tables after the reset and replay of a backup, and whether every
      statement succeeded. The replay stops at the first failing INSERT. */
  function ImportTables(d: BackupData): (Tables, bool)
  {
    var h := ImportHead(d);
    if !h.1 then h else
    var hl := ImportHealth(h.0, d);
    if !hl.1 then hl else ImportMindfulness(hl.0, d)
  }

  /** Whatever step an import stops at, the water table keeps one row per date. */
  lemma ImportKeepsWaterValid(d: BackupData)
    ensures WaterTableValid(ImportTables(d).0.waterLogs)
  {
    ReplayWaterSums(map[], Rows(d.waterLogs));
  }

  /** importData on the whole store: a rejected document leaves it as it was;
      otherwise the result of ImportTables, partial when a step failed. */
  function ImportSpec(before: Tables, doc: Option<BackupDocument>): (Tables, ImportOutcome)
  {
    if !Accepted(doc) then (before, Rejected)
    else
      var r := ImportTables(doc.value.data.value);
      (r.0, if r.1 then Imported else Aborted)
  }

  /** A rejected document changes nothing, and an accepted one replaces the
      whole store: what was there before has no influence on the result. */
  lemma ImportValidatesBeforeWipe(b1: Tables, b2: Tables, doc: Option<BackupDocument>)
    ensures !Accepted(doc) <==> ImportSpec(b1, doc).1 == Rejected
    ensures !Accepted(doc) ==> ImportSpec(b1, doc).0 == b1
    ensures Accepted(doc) ==> ImportSpec(b1, doc) == ImportSpec(b2, doc)
  {
  }

  /** A complete import holds exactly the backup's records: its user,
      every expense under its id, one water row per date with the summed
      glasses, the backup's settings, and its budgets and goals with the
      last row per id. */
  lemma CompleteImportContents(d: BackupData)
    requires ImportTables(d).1
    ensures var t := ImportTables(d).0;
      && t.users == (if d.user.Some? then map[d.user.value.id := Stored(d.user.value)] else map[])
      && (forall i :: 0 <= i < |Rows(d.expenses)| ==>
            Rows(d.expenses)[i].id in t.expenses && t.expenses[Rows(d.expenses)[i].id] == Rows(d.expenses)[i])
      && |t.expenses| == |Rows(d.expenses)|
      && WaterTableValid(t.waterLogs)
      && (forall k :: k in t.waterLogs ==> t.waterLogs[k].glasses == GlassesOn(Rows(d.waterLogs), t.waterLogs[k].date))
      && (forall day :: HasRowOn(t.waterLogs, day) <==> HasWaterOn(Rows(d.waterLogs), day))
      && t.settings == ReplaySettings(map[], Rows(d.settings))
      && LastWrites(t.budgets, Rows(d.budgets), BudgetKey)
      && LastWrites(t.goals, Rows(d.goals), GoalKey)
  {
    var h := ImportHead(d);
    var hl := ImportHealth(h.0, d);
    HeadWrites(d);
    HealthWrites(h.0, d);
    MindfulnessWrites(hl.0, d);
    var t := ImportTables(d).0;
    assert t == ImportMindfulness(hl.0, d).0;
    ReplayInsertsKeys(map[], Rows(d.expenses), ExpenseKey);
    ImportedWaterMerges(Rows(d.waterLogs));
    SavesFromEmpty(Rows(d.budgets), BudgetKey);
    SavesFromEmpty(Rows(d.goals), GoalKey);
  }

  /** The first part of a successful import: the user, the expenses replayed
      into an empty table, the budgets and goals saved into empty tables, and
      still no water logs or settings. */
  lemma HeadWrites(d: BackupData)
    requires ImportHead(d).1
    ensures var t := ImportHead(d).0;
      && t.users == (if d.user.Some? then map[d.user.value.id := Stored(d.user.value)] else map[])
      && ReplayInserts(map[], Rows(d.expenses), ExpenseKey) == Replayed(t.expenses, true)
      && t.budgets == ReplaySaves(map[], Rows(d.budgets), BudgetKey)
      && t.goals == ReplaySaves(map[], Rows(d.goals), GoalKey)
      && t.waterLogs == map[] && t.settings == map[]
  {
  }

  /** The health part writes only water logs and meals. */
  lemma HealthWrites(t: Tables, d: BackupData)
    requires ImportHealth(t, d).1
    ensures var r := ImportHealth(t, d).0;
      && r.users == t.users && r.expenses == t.expenses && r.settings == t.settings
      && r.budgets == t.budgets && r.goals == t.goals
      && ReplayWater(t.waterLogs, Rows(d.waterLogs)) == Replayed(r.waterLogs, true)
  {
  }

  /** The mindfulness part writes neither users, expenses nor water logs. */
  lemma MindfulnessWrites(t: Tables, d: BackupData)
    requires ImportMindfulness(t, d).1
    ensures var r := ImportMindfulness(t, d).0;
      && r.users == t.users && r.expenses == t.expenses && r.waterLogs == t.waterLogs
      && r.budgets == t.budgets && r.goals == t.goals
      && r.settings == ReplaySettings(t.settings, Rows(d.settings))
  {
  }

  /** An import aborted by a duplicate expense id keeps only the user and
      the expenses before the duplicate; nothing after that step is written.
      A concrete case of ReplayInsertsKeys and ImportKeepsWaterValid. */
  lemma DuplicateExpenseAborts(u: User, e: Expense, t: Tables)
    requires t == ImportSpec(EmptyTables, Some(BackupDocument(Some("1.0.0"),
      Some(BackupData(Some(u), Some([e, e]), None, None, None, Some([WaterLog("w", 2, 0)]),
                      None, None, None, None, None, Some([("theme", "light")])))))).0
    ensures ImportSpec(EmptyTables, Some(BackupDocument(Some("1.0.0"),
      Some(BackupData(Some(u), Some([e, e]), None, None, None, Some([WaterLog("w", 2, 0)]),
                      None, None, None, None, None, Some([("theme", "light")])))))).1 == Aborted
    ensures t.users == map[u.id := Stored(u)] && t.expenses == map[e.id := e]
    ensures t.waterLogs == map[] && t.settings == map[]
  {
    assert [e, e][1..] == [e];
    assert ReplayInserts(map[], [e, e], ExpenseKey) == ReplayInserts(map[e.id := e], [e], ExpenseKey);
    assert ReplayInserts(map[e.id := e], [e], ExpenseKey) == Replayed(map[e.id := e], false);
  }

  /** Restoring a backup brings back theme, style and streak mode, but the
      goals kept under financial/health/mindfulness are not settings rows and
      load as defaults afterwards. A concrete case of SettingsLastWriteWins,
      StreakModeNormalised and LoadSettingsAgree. */
  lemma ImportRestoresDisplaySettingsOnly(theme: string, style: string, parseInt: string -> int, parseFloat: string -> real)
    requires theme != "" && style != ""
    ensures var s := ReplaySettings(map[], [("theme", theme), ("style", style), ("streakMode", "any")]);
      var r := LoadSettings(s, parseInt, parseFloat);
      && r.settings == AppSettings(Any, theme, style)
      && r.dailyWaterGoal == 8 && r.monthlyBudget == 0.0 && r.currency == "$"
  {
    var pairs := [("theme", theme), ("style", style), ("streakMode", "any")];
    assert pairs[1..] == [("style", style), ("streakMode", "any")];
    assert pairs[1..][1..] == [("streakMode", "any")];
    assert pairs[1..][1..][1..] == [];
    var s1 := map["theme" := theme];
    var s2 := s1["style" := style];
    var s3 := s2["streakMode" := "any"];
    assert ReplaySettings(map[], pairs) == ReplaySettings(s1, pairs[1..]);
    assert ReplaySettings(s1, pairs[1..]) == ReplaySettings(s2, pairs[1..][1..]);
    assert ReplaySettings(s2, pairs[1..][1..]) == ReplaySettings(s3, []);
    assert Setting(s3, "theme") == Some(theme) && Setting(s3, "style") == Some(style);
    assert Setting(s3, "streakMode") == Some("any");
  }

  // ---------------------------------------------------------------------------
  // The replay loops of importData

  method InsertAll<T>(t0: map<string, T>, rows: seq<T>, key: T -> string) returns (t: map<string, T>, ok: bool)
    ensures Replayed(t, ok) == ReplayInserts(t0, rows, key)
  {
    t, ok := t0, true;
    var i := 0;
    while i < |rows|
      invariant 0 <= i <= |rows|
      invariant ReplayInserts(t, rows[i..], key) == ReplayInserts(t0, rows, key)
    {
      assert rows[i..][0] == rows[i] && rows[i..][1..] == rows[i + 1..];
      if key(rows[i]) in t {
        ok := false;
        return;
      }
      t := t[key(rows[i]) := rows[i]];
      i := i + 1;
    }
    assert rows[|rows|..] == [];
  }

  method SaveAll<T>(t0: map<string, T>, rows: seq<T>, key: T -> string) returns (t: map<string, T>)
    ensures t == ReplaySaves(t0, rows, key)
  {
    t := t0;
    var i := 0;
    while i < |rows|
      invariant 0 <= i <= |rows|
      invariant ReplaySaves(t, rows[i..], key) == ReplaySaves(t0, rows, key)
    {
      assert rows[i..][0] == rows[i] && rows[i..][1..] == rows[i + 1..];
      t := t[key(rows[i]) := rows[i]];
      i := i + 1;
    }
    assert rows[|rows|..] == [];
  }

  method LogWaterAll(t0: map<string, WaterLog>, logs: seq<WaterLog>) returns (t: map<string, WaterLog>, ok: bool)
    ensures Replayed(t, ok) == ReplayWater(t0, logs)
  {
    t, ok := t0, true;
    var i := 0;
    while i < |logs|
      invariant 0 <= i <= |logs|
      invariant ReplayWater(t, logs[i..]) == ReplayWater(t0, logs)
    {
      assert logs[i..][0] == logs[i] && logs[i..][1..] == logs[i + 1..];
      var next := LogWaterRows(t, logs[i]);
      if next.None? {
        ok := false;
        return;
      }
      t := next.value;
      i := i + 1;
    }
    assert logs[|logs|..] == [];
  }

  method SaveSettings(t0: map<string, string>, pairs: seq<(string, string)>) returns (t: map<string, string>)
    ensures t == ReplaySettings(t0, pairs)
  {
    t := t0;
    var i := 0;
    while i < |pairs|
      invariant 0 <= i <= |pairs|
      invariant ReplaySettings(t, pairs[i..]) == ReplaySettings(t0, pairs)
    {
      assert pairs[i..][0] == pairs[i] && pairs[i..][1..] == pairs[i + 1..];
      t := t[pairs[i].0 := pairs[i].1];
      i := i + 1;
    }
    assert pairs[|pairs|..] == [];
  }

  // ---------------------------------------------------------------------------
  // The store

  class Store {
    var users: map<string, StoredUser>
    var expenses: map<string, Expense>
    var budgets: map<string, Budget>
    var goals: map<string, FinancialGoal>
    var workouts: map<string, Workout>
    var waterLogs: map<string, WaterLog>
    var meals: map<string, MealLog>
    var meditations: map<string, MeditationSession>
    var journals: map<string, JournalEntry>
    var gratitudeLogs: map<string, GratitudeLog>
    var moods: map<string, MoodEntry>
    var settings: map<string, string>

    function Snapshot(): Tables
      reads this
    {
      Tables(users, expenses, budgets, goals, workouts, waterLogs, meals, meditations, journals,
             gratitudeLogs, moods, settings)
    }

    ghost predicate Valid()
      reads this
    {
      WaterTableValid(waterLogs)
    }

    /** A freshly created database: every table empty. */
    constructor()
      ensures Snapshot() == EmptyTables && Valid()
    {
      users, expenses, budgets, goals := map[], map[], map[], map[];
      workouts, waterLogs, meals := map[], map[], map[];
      meditations, journals, gratitudeLogs, moods, settings := map[], map[], map[], map[], map[];
    }

    /** saveUser: INSERT OR REPLACE by id. */
    method SaveUser(u: User)
      modifies this`users
      ensures users == old(users)[u.id := Stored(u)]
    {
      users := users[u.id := Stored(u)];
    }

    /** getSetting. */
    function GetSetting(key: string): Option<string>
      reads this
    {
      Setting(settings, key)
    }

    /** saveSetting: INSERT OR REPLACE, so reading the key back gives the
      value (null for an empty one) and other keys read as before. */
    method SaveSetting(key: string, value: string)
      modifies this`settings
      ensures settings == old(settings)[key := value]
      ensures GetSetting(key) == if value == "" then None else Some(value)
      ensures forall k :: k != key ==> GetSetting(k) == old(GetSetting(k))
    {
      settings := settings[key := value];
    }

    /** logWater; `ok` is false when the INSERT fails on a taken id. */
    method LogWater(log: WaterLog) returns (ok: bool)
      modifies this`waterLogs
      ensures ok <==> LogWaterRows(old(waterLogs), log).Some?
      ensures waterLogs == if ok then LogWaterRows(old(waterLogs), log).value else old(waterLogs)
      ensures old(Valid()) ==> Valid()
    {
      var next := LogWaterRows(waterLogs, log);
      if next.Some? {
        if Valid() {
          LogWaterStep(waterLogs, log);
        }
        waterLogs := next.value;
      }
      ok := next.Some?;
    }

    /** resetAllData: every table emptied, user and settings included. */
    method ResetAllData()
      modifies this
      ensures Snapshot() == EmptyTables && Valid()
    {
      assert WaterTableValid(map[]);
      users := map[];
      expenses := map[];
      budgets := map[];
      goals := map[];
      workouts := map[];
      waterLogs := map[];
      meals := map[];
      meditations := map[];
      journals := map[];
      gratitudeLogs := map[];
      moods := map[];
      settings := map[];
    }

    /** importData: format check, reset, then the replay of the backup's
      collections in order, stopping at the first failure. */
    method ImportData(doc: Option<BackupDocument>) returns (outcome: ImportOutcome)
      modifies this
      ensures (Snapshot(), outcome) == ImportSpec(old(Snapshot()), doc)
      ensures old(Valid()) ==> Valid()
    {
      if !Accepted(doc) {
        return Rejected;
      }
      var d := doc.value.data.value;
      ResetAllData();
      var ok := ReplayHead(d);
      if ok {
        ok := ReplayHealth(d);
      }
      if ok {
        ok := ReplayMindfulness(d);
      }
      outcome := if ok then Imported else Aborted;
      ImportKeepsWaterValid(d);
    }

    /** The replay of user, expenses, budgets, goals and workouts into the emptied store. */
    method ReplayHead(d: BackupData) returns (ok: bool)
      requires Snapshot() == EmptyTables
      modifies this`users, this`expenses, this`budgets, this`goals, this`workouts
      ensures (Snapshot(), ok) == ImportHead(d)
    {
      if d.user.Some? {
        SaveUser(d.user.value);
      }
      expenses, ok := InsertAll(expenses, Rows(d.expenses), ExpenseKey);
      if !ok { return; }
      budgets := SaveAll(budgets, Rows(d.budgets), BudgetKey);
      goals := SaveAll(goals, Rows(d.goals), GoalKey);
      workouts, ok := InsertAll(workouts, Rows(d.workouts), WorkoutKey);
    }

    /** The replay of water logs, then meals. */
    method ReplayHealth(d: BackupData) returns (ok: bool)
      modifies this`waterLogs, this`meals
      ensures (Snapshot(), ok) == ImportHealth(old(Snapshot()), d)
    {
      waterLogs, ok := LogWaterAll(waterLogs, Rows(d.waterLogs));
      if !ok { return; }
      meals, ok := InsertAll(meals, Rows(d.meals), MealKey);
    }

    /** The replay of meditations, journals, gratitude logs, moods and settings. */
    method ReplayMindfulness(d: BackupData) returns (ok: bool)
      modifies this`meditations, this`journals, this`gratitudeLogs, this`moods, this`settings
      ensures (Snapshot(), ok) == ImportMindfulness(old(Snapshot()), d)
    {
      meditations, ok := InsertAll(meditations, Rows(d.meditations), MeditationKey);
      if !ok { return; }
      journals, ok := InsertAll(journals, Rows(d.journals), JournalKey);
      if !ok { return; }
      gratitudeLogs, ok := InsertAll(gratitudeLogs, Rows(d.gratitudeLogs), GratitudeKey);
      if !ok { return; }
      moods, ok := InsertAll(moods, Rows(d.moods), MoodKey);
      if !ok { return; }
      settings := SaveSettings(settings, Rows(d.settings));
    }
  }
}
