/** The app-state reducer `appReducer` and the initial state constants
    (src/context/AppContext.tsx). Every case builds a new state; nothing is
    updated in place. */
module Reducer {
  import opened Types
  import opened Leveling

  const InitialStreaks: Streaks := Streaks(0, 0, 0, 0, "")

  const InitialSettings: AppSettings := AppSettings(All, "dark", "modern")

  const InitialState: AppState := AppState(
    None,
    FinancialState([], [], [], 0.0, "$"),
    HealthState([], [], [], 8, 2000, 10000),
    MindfulnessState([], [], [], [], 10),
    [],
    InitialSettings,
    true)

  // ---------------------------------------------------------------------------
  // List operations used by the reducer cases

  predicate NoDuplicates(s: seq<string>)
  {
    forall i, j :: 0 <= i < j < |s| ==> s[i] != s[j]
  }

  /** At most one water log per date. */
  predicate UniqueWaterDates(ws: seq<WaterLog>)
  {
    forall i, j :: 0 <= i < j < |ws| ==> ws[i].date != ws[j].date
  }

  /** At most one budget per category. */
  predicate UniqueBudgetCategories(bs: seq<Budget>)
  {
    forall i, j :: 0 <= i < j < |bs| ==> bs[i].category != bs[j].category
  }

  /** `waterLogs.find(w => w.date === date)` succeeds. */
  predicate HasWaterOn(ws: seq<WaterLog>, d: Day)
  {
    exists k :: 0 <= k < |ws| && ws[k].date == d
  }

  /** Total glasses over the logs of one date. */
  function GlassesOn(ws: seq<WaterLog>, d: Day): int
  {
    if ws == [] then 0 else (if ws[0].date == d then ws[0].glasses else 0) + GlassesOn(ws[1..], d)
  }

  /** The `map` of LOG_WATER: every log of the payload's date gains its glasses. */
  function AddGlasses(ws: seq<WaterLog>, log: WaterLog): (r: seq<WaterLog>)
    ensures |r| == |ws|
    ensures forall k :: 0 <= k < |ws| && ws[k].date != log.date ==> r[k] == ws[k]
    ensures forall k :: 0 <= k < |ws| && ws[k].date == log.date ==> r[k] == ws[k].(glasses := ws[k].glasses + log.glasses)
  {
    if ws == [] then []
    else [if ws[0].date == log.date then ws[0].(glasses := ws[0].glasses + log.glasses) else ws[0]]
         + AddGlasses(ws[1..], log)
  }

  /** The `filter` of DELETE_EXPENSE: the expenses whose id differs. */
  function WithoutExpense(es: seq<Expense>, id: string): (r: seq<Expense>)
    ensures |r| <= |es|
    ensures forall e :: e in r <==> e in es && e.id != id
  {
    if es == [] then [] else (if es[0].id == id then [] else [es[0]]) + WithoutExpense(es[1..], id)
  }

  /** `findIndex` on the budget category: the first match, or -1. */
  function FindBudget(bs: seq<Budget>, category: string): (i: int)
    ensures -1 <= i < |bs|
    ensures i >= 0 ==> bs[i].category == category && forall j :: 0 <= j < i ==> bs[j].category != category
    ensures i == -1 ==> forall j :: 0 <= j < |bs| ==> bs[j].category != category
  {
    if bs == [] then -1
    else if bs[0].category == category then 0
    else var i := FindBudget(bs[1..], category); if i == -1 then -1 else i + 1
  }

  /** SET_BUDGET: overwrite the copy at the found index, or push onto it. */
  function UpsertBudget(bs: seq<Budget>, b: Budget): seq<Budget>
  {
    var i := FindBudget(bs, b.category);
    if i >= 0 then bs[i := b] else bs + [b]
  }

  /** The `map` of COMPLETE_CHALLENGE. */
  function MarkCompleted(cs: seq<DailyChallenge>, id: string): (r: seq<DailyChallenge>)
    ensures |r| == |cs|
    ensures forall k :: 0 <= k < |cs| && cs[k].id != id ==> r[k] == cs[k]
    ensures forall k :: 0 <= k < |cs| && cs[k].id == id ==> r[k] == cs[k].(completed := true)
  {
    if cs == [] then []
    else [if cs[0].id == id then cs[0].(completed := true) else cs[0]] + MarkCompleted(cs[1..], id)
  }

  /** The `map` of UPDATE_FINANCIAL_GOAL. */
  function ReplaceGoal(gs: seq<FinancialGoal>, g: FinancialGoal): (r: seq<FinancialGoal>)
    ensures |r| == |gs|
    ensures forall k :: 0 <= k < |gs| ==> r[k] == if gs[k].id == g.id then g else gs[k]
  {
    if gs == [] then [] else [if gs[0].id == g.id then g else gs[0]] + ReplaceGoal(gs[1..], g)
  }

  function SetStreak(st: Streaks, key: StreakKey, v: int): Streaks
  {
    match key
    case FinancialStreak => st.(financial := v)
    case HealthStreak => st.(health := v)
    case MindfulnessStreak => st.(mindfulness := v)
    case OverallStreak => st.(overall := v)
  }

  function Pick<T>(patch: Option<T>, current: T): T
  {
    if patch.Some? then patch.value else current
  }

  /** `{ ...settings, ...patch }`. */
  function MergeSettings(s: AppSettings, p: SettingsPatch): AppSettings
  {
    AppSettings(Pick(p.streakMode, s.streakMode), Pick(p.theme, s.theme), Pick(p.style, s.style))
  }

  /** `{ ...state, ...payload, isLoading: false }`: top-level keys only. */
  function MergeState(s: AppState, p: StatePatch): AppState
  {
    AppState(
      Pick(p.user, s.user),
      Pick(p.financial, s.financial),
      Pick(p.health, s.health),
      Pick(p.mindfulness, s.mindfulness),
      Pick(p.dailyChallenges, s.dailyChallenges),
      Pick(p.settings, s.settings),
      false)
  }

  // ---------------------------------------------------------------------------
  // The reducer

  function Reduce(s: AppState, a: AppAction): AppState
  {
    match a
    case SetUser(u) => s.(user := Some(u))
    case AddXP(amount) =>
      if s.user.None? then s
      else
        var total := s.user.value.totalXP + amount;
        s.(user := Some(s.user.value.(totalXP := total, level := LevelOf(total).level)))
    case UnlockAchievement(id) =>
      if s.user.None? || id in s.user.value.achievements then s
      else s.(user := Some(s.user.value.(achievements := s.user.value.achievements + [id])))
    case UpdateStreak(key, v) =>
      if s.user.None? then s
      else s.(user := Some(s.user.value.(streaks := SetStreak(s.user.value.streaks, key, v))))
    case SetLoading(b) => s.(isLoading := b)
    case AddExpense(e) => s.(financial := s.financial.(expenses := [e] + s.financial.expenses))
    case DeleteExpense(id) => s.(financial := s.financial.(expenses := WithoutExpense(s.financial.expenses, id)))
    case SetBudget(b) => s.(financial := s.financial.(budgets := UpsertBudget(s.financial.budgets, b)))
    case AddFinancialGoal(g) => s.(financial := s.financial.(goals := s.financial.goals + [g]))
    case UpdateFinancialGoal(g) => s.(financial := s.financial.(goals := ReplaceGoal(s.financial.goals, g)))
    case AddWorkout(w) => s.(health := s.health.(workouts := [w] + s.health.workouts))
    case LogWater(log) =>
      if HasWaterOn(s.health.waterLogs, log.date)
      then s.(health := s.health.(waterLogs := AddGlasses(s.health.waterLogs, log)))
      else s.(health := s.health.(waterLogs := [log] + s.health.waterLogs))
    case AddMeal(m) => s.(health := s.health.(meals := [m] + s.health.meals))
    case AddMeditation(m) => s.(mindfulness := s.mindfulness.(meditations := [m] + s.mindfulness.meditations))
    case AddJournal(j) => s.(mindfulness := s.mindfulness.(journals := [j] + s.mindfulness.journals))
    case AddGratitude(g) => s.(mindfulness := s.mindfulness.(gratitudeLogs := [g] + s.mindfulness.gratitudeLogs))
    case AddMood(m) => s.(mindfulness := s.mindfulness.(moods := [m] + s.mindfulness.moods))
    case UpdateSettings(p) => s.(settings := MergeSettings(s.settings, p))
    case SetDailyChallenges(cs) => s.(dailyChallenges := cs)
    case CompleteChallenge(id) => s.(dailyChallenges := MarkCompleted(s.dailyChallenges, id))
    case LoadState(p) => MergeState(s, p)
  }

  // ---------------------------------------------------------------------------
  // XP and level

  /** The user's stored level agrees with their XP. */
  ghost predicate LevelConsistent(s: AppState)
  {
    s.user.Some? ==> s.user.value.level == LevelOf(s.user.value.totalXP).level
  }

  /** ADD_XP adds the amount to the total and recomputes the level from the new
      total; every other field of the state and the user is unchanged; with
      no user it does nothing. */
  lemma AddXPSpec(s: AppState, amount: int)
    ensures s.user.None? ==> Reduce(s, AddXP(amount)) == s
    ensures s.user.Some? ==>
      var r := Reduce(s, AddXP(amount));
      && r.user.Some?
      && r.user.value.totalXP == s.user.value.totalXP + amount
      && r.user.value.level == LevelOf(r.user.value.totalXP).level
      && r.user.value.(totalXP := s.user.value.totalXP, level := s.user.value.level) == s.user.value
      && r.(user := s.user) == s
  {
  }

  /** Granting non-negative XP to a consistent user never lowers the level and
      keeps level and XP consistent. */
  lemma AddXPNeverLowersLevel(s: AppState, amount: int)
    requires LevelConsistent(s) && s.user.Some? && s.user.value.totalXP >= 0 && amount >= 0
    ensures LevelConsistent(Reduce(s, AddXP(amount)))
    ensures Reduce(s, AddXP(amount)).user.value.level >= s.user.value.level
  {
    LevelMonotone(s.user.value.totalXP, s.user.value.totalXP + amount);
  }

  /** Only SET_USER and LOAD_STATE can install a user whose level disagrees with its XP. */
  lemma ActionsKeepLevelConsistent(s: AppState, a: AppAction)
    requires LevelConsistent(s) && !a.SetUser? && !a.LoadState?
    ensures LevelConsistent(Reduce(s, a))
  {
  }

  // ---------------------------------------------------------------------------
  // Achievements

  /** UNLOCK_ACHIEVEMENT leaves the state alone when the id is present (or
      there is no user); otherwise it appends the id once. It never changes
      XP or level, keeps the list duplicate-free and is idempotent. */
  lemma UnlockAchievementSpec(s: AppState, id: string)
    ensures var r := Reduce(s, UnlockAchievement(id));
      && (s.user.None? || id in s.user.value.achievements ==> r == s)
      && (s.user.Some? && id !in s.user.value.achievements ==>
            r.user.Some? && r.user.value.achievements == s.user.value.achievements + [id]
            && r.user.value.(achievements := s.user.value.achievements) == s.user.value
            && r.(user := s.user) == s)
      && (s.user.Some? ==> r.user.Some? && r.user.value.totalXP == s.user.value.totalXP
                           && r.user.value.level == s.user.value.level
                           && id in r.user.value.achievements)
      && (s.user.Some? && NoDuplicates(s.user.value.achievements) ==> NoDuplicates(r.user.value.achievements))
      && Reduce(r, UnlockAchievement(id)) == r
  {
  }

  // ---------------------------------------------------------------------------
  // Records that are prepended, appended or filtered

  /** The six "add" actions put the payload in front of its list (length + 1,
      the old list is the tail); ADD_MEAL does the same for meals. */
  lemma PrependActionsSpec(s: AppState, a: AppAction)
    requires a.AddExpense? || a.AddWorkout? || a.AddMeal? || a.AddMeditation? || a.AddJournal? || a.AddGratitude? || a.AddMood?
    ensures var r := Reduce(s, a);
      match a
      case AddExpense(e) => r.financial.expenses == [e] + s.financial.expenses && r.(financial := s.financial) == s
                            && r.financial.(expenses := s.financial.expenses) == s.financial
      case AddWorkout(w) => r.health.workouts == [w] + s.health.workouts && r.(health := s.health) == s
                            && r.health.(workouts := s.health.workouts) == s.health
      case AddMeal(m) => r.health.meals == [m] + s.health.meals && r.(health := s.health) == s
                         && r.health.(meals := s.health.meals) == s.health
      case AddMeditation(m) => r.mindfulness.meditations == [m] + s.mindfulness.meditations && r.(mindfulness := s.mindfulness) == s
                               && r.mindfulness.(meditations := s.mindfulness.meditations) == s.mindfulness
      case AddJournal(j) => r.mindfulness.journals == [j] + s.mindfulness.journals && r.(mindfulness := s.mindfulness) == s
                            && r.mindfulness.(journals := s.mindfulness.journals) == s.mindfulness
      case AddGratitude(g) => r.mindfulness.gratitudeLogs == [g] + s.mindfulness.gratitudeLogs && r.(mindfulness := s.mindfulness) == s
                              && r.mindfulness.(gratitudeLogs := s.mindfulness.gratitudeLogs) == s.mindfulness
      case AddMood(m) => r.mindfulness.moods == [m] + s.mindfulness.moods && r.(mindfulness := s.mindfulness) == s
                         && r.mindfulness.(moods := s.mindfulness.moods) == s.mindfulness
      case _ => true
  {
  }

  /** ADD_FINANCIAL_GOAL appends at the end; UPDATE_FINANCIAL_GOAL replaces
      every goal with the payload's id and keeps the length. Neither changes
      anything but the goals. */
  lemma GoalActionsSpec(s: AppState, g: FinancialGoal)
    ensures var r := Reduce(s, AddFinancialGoal(g));
      && r.financial.goals == s.financial.goals + [g]
      && r.financial.(goals := s.financial.goals) == s.financial
      && r.(financial := s.financial) == s
    ensures var r := Reduce(s, UpdateFinancialGoal(g)); var gs := r.financial.goals;
      && |gs| == |s.financial.goals|
      && (forall k :: 0 <= k < |gs| ==> gs[k] == if s.financial.goals[k].id == g.id then g else s.financial.goals[k])
      && r.financial.(goals := s.financial.goals) == s.financial
      && r.(financial := s.financial) == s
  {
  }

  /** Filtering distributes over concatenation: the kept expenses stay in their order. */
  lemma {:induction false} WithoutExpenseConcat(a: seq<Expense>, b: seq<Expense>, id: string)
    ensures WithoutExpense(a + b, id) == WithoutExpense(a, id) + WithoutExpense(b, id)
  {
    if a == [] {
      assert a + b == b;
    } else {
      assert (a + b)[1..] == a[1..] + b;
      WithoutExpenseConcat(a[1..], b, id);
    }
  }

  /** Each expense occurs as often as before, unless it carries the id, then not at all. */
  lemma {:induction false} WithoutExpenseCounts(es: seq<Expense>, id: string)
    ensures forall e :: multiset(WithoutExpense(es, id))[e] == if e.id == id then 0 else multiset(es)[e]
  {
    if es != [] {
      WithoutExpenseCounts(es[1..], id);
      assert es == [es[0]] + es[1..];
    }
  }

  /** DELETE_EXPENSE removes exactly the expenses with that id, keeps the
      others in order and multiplicity, changes nothing but the expenses,
      and deleting twice is deleting once. */
  lemma DeleteExpenseSpec(s: AppState, id: string)
    ensures var r := Reduce(s, DeleteExpense(id)).financial.expenses;
      && (forall e :: e in r <==> e in s.financial.expenses && e.id != id)
      && (forall e :: multiset(r)[e] == if e.id == id then 0 else multiset(s.financial.expenses)[e])
      && Reduce(Reduce(s, DeleteExpense(id)), DeleteExpense(id)) == Reduce(s, DeleteExpense(id))
    ensures Reduce(s, DeleteExpense(id)).financial.(expenses := s.financial.expenses) == s.financial
    ensures Reduce(s, DeleteExpense(id)).(financial := s.financial) == s
  {
    var es := s.financial.expenses;
    var r1 := s.(financial := s.financial.(expenses := WithoutExpense(es, id)));
    assert Reduce(s, DeleteExpense(id)) == r1;
    WithoutExpenseCounts(es, id);
    WithoutExpenseIdempotent(es, id);
    assert Reduce(r1, DeleteExpense(id)) == r1.(financial := r1.financial.(expenses := WithoutExpense(WithoutExpense(es, id), id)));
  }

  lemma {:induction false} WithoutExpenseIdempotent(es: seq<Expense>, id: string)
    ensures WithoutExpense(WithoutExpense(es, id), id) == WithoutExpense(es, id)
  {
    if es != [] {
      WithoutExpenseIdempotent(es[1..], id);
      if es[0].id != id {
        WithoutExpenseConcat([es[0]], WithoutExpense(es[1..], id), id);
        assert WithoutExpense([es[0]], id) == [es[0]];
      } else {
        assert WithoutExpense(es, id) == WithoutExpense(es[1..], id);
      }
    }
  }

  // ---------------------------------------------------------------------------
  // Water

  /** LOG_WATER on a date that has a log: same length, the logs of that date
      gain the payload's glasses, the others are unchanged. Otherwise the
      payload is prepended. */
  lemma LogWaterSpec(s: AppState, log: WaterLog)
    ensures var ws, r := s.health.waterLogs, Reduce(s, LogWater(log)).health.waterLogs;
      && (HasWaterOn(ws, log.date) ==>
            |r| == |ws| &&
            forall k :: 0 <= k < |ws| ==>
              r[k] == if ws[k].date == log.date then ws[k].(glasses := ws[k].glasses + log.glasses) else ws[k])
      && (!HasWaterOn(ws, log.date) ==> r == [log] + ws)
      && Reduce(s, LogWater(log)).(health := s.health) == s
  {
  }

  /** LOG_WATER keeps at most one log per date. */
  lemma LogWaterKeepsDatesUnique(s: AppState, log: WaterLog)
    requires UniqueWaterDates(s.health.waterLogs)
    ensures UniqueWaterDates(Reduce(s, LogWater(log)).health.waterLogs)
  {
    var ws := s.health.waterLogs;
    if !HasWaterOn(ws, log.date) {
      var r := [log] + ws;
      forall i, j | 0 <= i < j < |r| ensures r[i].date != r[j].date {
        if i == 0 {
          assert r[j] == ws[j - 1];
        }
      }
    }
  }

  lemma HasWaterOnCons(ws: seq<WaterLog>, d: Day)
    requires ws != []
    ensures HasWaterOn(ws, d) <==> ws[0].date == d || HasWaterOn(ws[1..], d)
  {
    if HasWaterOn(ws[1..], d) {
      var k :| 0 <= k < |ws[1..]| && ws[1..][k].date == d;
      assert ws[k + 1].date == d;
    }
    if HasWaterOn(ws, d) && ws[0].date != d {
      var k :| 0 <= k < |ws| && ws[k].date == d;
      assert ws[1..][k - 1].date == d;
    }
  }

  lemma UniqueWaterDatesTail(ws: seq<WaterLog>)
    requires ws != [] && UniqueWaterDates(ws)
    ensures UniqueWaterDates(ws[1..]) && !HasWaterOn(ws[1..], ws[0].date)
  {
    forall k | 0 <= k < |ws[1..]| ensures ws[1..][k].date != ws[0].date {
      assert ws[1..][k] == ws[k + 1];
    }
  }

  /** With one log per date, the `map` of LOG_WATER raises the total of the
      payload's date by its glasses when that date has a log, and no other total. */
  lemma {:induction false} AddGlassesTotals(ws: seq<WaterLog>, log: WaterLog, d: Day)
    requires UniqueWaterDates(ws)
    ensures GlassesOn(AddGlasses(ws, log), d)
         == GlassesOn(ws, d) + (if d == log.date && HasWaterOn(ws, d) then log.glasses else 0)
  {
    if ws != [] {
      UniqueWaterDatesTail(ws);
      HasWaterOnCons(ws, d);
      AddGlassesTotals(ws[1..], log, d);
      assert AddGlasses(ws, log)[1..] == AddGlasses(ws[1..], log);
    }
  }

  /** With one log per date, LOG_WATER raises that date's total by exactly the
      payload's glasses and leaves every other date's total alone. */
  lemma LogWaterAddsGlasses(s: AppState, log: WaterLog, d: Day)
    requires UniqueWaterDates(s.health.waterLogs)
    ensures GlassesOn(Reduce(s, LogWater(log)).health.waterLogs, d)
         == GlassesOn(s.health.waterLogs, d) + (if d == log.date then log.glasses else 0)
  {
    var ws := s.health.waterLogs;
    if HasWaterOn(ws, log.date) {
      AddGlassesTotals(ws, log, d);
    } else {
      assert ([log] + ws)[1..] == ws;
    }
  }

  // ---------------------------------------------------------------------------
  // Budgets

  /** SET_BUDGET replaces, at its index, the first budget with the payload's
      category, or appends the payload; the other budgets are unchanged, and
      "one budget per category" is preserved; nothing but the budgets changes. */
  lemma SetBudgetSpec(s: AppState, b: Budget)
    ensures var bs, r := s.financial.budgets, Reduce(s, SetBudget(b)).financial.budgets;
      && ((exists k :: 0 <= k < |bs| && bs[k].category == b.category) ==>
            |r| == |bs| &&
            exists i :: 0 <= i < |bs| && bs[i].category == b.category && r == bs[i := b] &&
              forall k :: 0 <= k < i ==> bs[k].category != b.category)
      && ((forall k :: 0 <= k < |bs| ==> bs[k].category != b.category) ==> r == bs + [b])
      && b in r
      && (UniqueBudgetCategories(bs) ==> UniqueBudgetCategories(r))
    ensures Reduce(s, SetBudget(b)).financial.(budgets := s.financial.budgets) == s.financial
    ensures Reduce(s, SetBudget(b)).(financial := s.financial) == s
  {
    var bs := s.financial.budgets;
    var i := FindBudget(bs, b.category);
    if i >= 0 {
      assert bs[i := b][i] == b;
    } else {
      assert (bs + [b])[|bs|] == b;
    }
  }

  // ---------------------------------------------------------------------------
  // Challenges

  /** COMPLETE_CHALLENGE sets `completed` on the challenges with that id and
      on nothing else, keeps the length, and is idempotent. */
  lemma CompleteChallengeSpec(s: AppState, id: string)
    ensures var cs, r := s.dailyChallenges, Reduce(s, CompleteChallenge(id)).dailyChallenges;
      && |r| == |cs|
      && (forall k :: 0 <= k < |cs| ==> r[k] == if cs[k].id == id then cs[k].(completed := true) else cs[k])
      && Reduce(Reduce(s, CompleteChallenge(id)), CompleteChallenge(id)) == Reduce(s, CompleteChallenge(id))
      && Reduce(s, CompleteChallenge(id)).(dailyChallenges := cs) == s
  {
    var r := MarkCompleted(s.dailyChallenges, id);
    assert MarkCompleted(r, id) == r;
  }

  // ---------------------------------------------------------------------------
  // Settings, loading, users and streaks

  /** UPDATE_SETTINGS takes each key the patch carries and keeps the others;
      an empty patch changes nothing and applying a patch twice is applying it once. */
  lemma UpdateSettingsSpec(s: AppState, p: SettingsPatch)
    ensures var r := Reduce(s, UpdateSettings(p)).settings;
      && r.streakMode == (if p.streakMode.Some? then p.streakMode.value else s.settings.streakMode)
      && r.theme == (if p.theme.Some? then p.theme.value else s.settings.theme)
      && r.style == (if p.style.Some? then p.style.value else s.settings.style)
      && Reduce(s, UpdateSettings(p)).(settings := s.settings) == s
    ensures Reduce(s, UpdateSettings(SettingsPatch(None, None, None))) == s
    ensures Reduce(Reduce(s, UpdateSettings(p)), UpdateSettings(p)) == Reduce(s, UpdateSettings(p))
  {
  }

  /** LOAD_STATE replaces each top-level part the payload carries, wholesale,
      keeps the rest, and always clears `isLoading`. */
  lemma LoadStateSpec(s: AppState, p: StatePatch)
    ensures var r := Reduce(s, LoadState(p));
      && !r.isLoading
      && r.user == (if p.user.Some? then p.user.value else s.user)
      && r.financial == (if p.financial.Some? then p.financial.value else s.financial)
      && r.health == (if p.health.Some? then p.health.value else s.health)
      && r.mindfulness == (if p.mindfulness.Some? then p.mindfulness.value else s.mindfulness)
      && r.dailyChallenges == (if p.dailyChallenges.Some? then p.dailyChallenges.value else s.dailyChallenges)
      && r.settings == (if p.settings.Some? then p.settings.value else s.settings)
  {
  }

  /** The counter a streak key names. */
  function StreakOf(st: Streaks, key: StreakKey): int
  {
    match key
    case FinancialStreak => st.financial
    case HealthStreak => st.health
    case MindfulnessStreak => st.mindfulness
    case OverallStreak => st.overall
  }

  /** SET_USER, SET_LOADING and SET_DAILY_CHALLENGES overwrite one part;
      UPDATE_STREAK sets the counter its key names of an existing user, keeps
      the other three counters, the last activity date, the rest of the user
      and the rest of the state, and does nothing without a user. */
  lemma SettersSpec(s: AppState, u: User, b: bool, cs: seq<DailyChallenge>, key: StreakKey, v: int)
    ensures Reduce(s, SetUser(u)) == s.(user := Some(u))
    ensures Reduce(s, SetLoading(b)) == s.(isLoading := b)
    ensures Reduce(s, SetDailyChallenges(cs)) == s.(dailyChallenges := cs)
    ensures s.user.None? ==> Reduce(s, UpdateStreak(key, v)) == s
    ensures s.user.Some? ==>
      var r := Reduce(s, UpdateStreak(key, v));
      && r.user.Some?
      && StreakOf(r.user.value.streaks, key) == v
      && (forall k :: k != key ==> StreakOf(r.user.value.streaks, k) == StreakOf(s.user.value.streaks, k))
      && r.user.value.streaks.lastActivityDate == s.user.value.streaks.lastActivityDate
      && r.user.value.(streaks := s.user.value.streaks) == s.user.value
      && r.(user := s.user) == s
  {
  }

  /** Every action but LOAD_STATE keeps at most one water log per date: only
      LOG_WATER and LOAD_STATE touch the logs. */
  lemma ActionsKeepWaterDatesUnique(s: AppState, a: AppAction)
    requires UniqueWaterDates(s.health.waterLogs) && !a.LoadState?
    ensures UniqueWaterDates(Reduce(s, a).health.waterLogs)
  {
    if a.LogWater? {
      LogWaterKeepsDatesUnique(s, a.log);
    }
  }
}
