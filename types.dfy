/** Entities and actions of the app (src/types/index.ts).
    Calendar dates are integer day numbers; timestamps such as `createdAt` stay opaque strings. */
module Types {

  datatype Option<+T> = None | Some(value: T)

  /** A calendar date as a day number; day 0 is 1970-01-01. */
  type Day = int

  datatype Streaks = Streaks(
    financial: int,
    health: int,
    mindfulness: int,
    overall: int,
    lastActivityDate: string)

  datatype User = User(
    id: string,
    name: string,
    createdAt: string,
    totalXP: int,
    level: int,
    streaks: Streaks,
    achievements: seq<string>)

  datatype AchievementCategory = FinancialAchievement | HealthAchievement | MindfulnessAchievement | GeneralAchievement

  datatype Achievement = Achievement(
    id: string,
    title: string,
    description: string,
    icon: string,
    category: AchievementCategory,
    xpReward: int)

  datatype ChallengeCategory = FinancialChallenge | HealthChallenge | MindfulnessChallenge

  datatype DailyChallenge = DailyChallenge(
    id: string,
    title: string,
    description: string,
    xpReward: int,
    category: ChallengeCategory,
    completed: bool,
    date: Day)

  /** One row of the level table. */
  datatype LevelEntry = LevelEntry(level: int, minXP: int, title: string)

  datatype Expense = Expense(id: string, amount: real, category: string, description: string, date: Day, createdAt: string)

  datatype BudgetPeriod = Daily | Weekly | Monthly

  datatype Budget = Budget(id: string, category: string, amount: real, spent: real, period: BudgetPeriod)

  datatype FinancialGoal = FinancialGoal(
    id: string,
    title: string,
    targetAmount: real,
    currentAmount: real,
    deadline: Option<string>,
    createdAt: string,
    completedAt: Option<string>)

  datatype FinancialState = FinancialState(
    expenses: seq<Expense>,
    budgets: seq<Budget>,
    goals: seq<FinancialGoal>,
    monthlyBudget: real,
    currency: string)

  datatype Workout = Workout(
    id: string,
    kind: string,
    duration: int,
    calories: Option<int>,
    notes: Option<string>,
    date: Day,
    createdAt: string)

  datatype WaterLog = WaterLog(id: string, glasses: int, date: Day)

  datatype MealType = Breakfast | Lunch | Dinner | Snack

  datatype MealLog = MealLog(id: string, kind: MealType, description: string, calories: Option<int>, date: Day, createdAt: string)

  datatype HealthState = HealthState(
    workouts: seq<Workout>,
    waterLogs: seq<WaterLog>,
    meals: seq<MealLog>,
    dailyWaterGoal: int,
    dailyCalorieGoal: int,
    dailyStepGoal: int)

  datatype MeditationType = Guided | Timer | Breathing

  datatype MeditationSession = MeditationSession(
    id: string,
    duration: int,
    kind: MeditationType,
    notes: Option<string>,
    date: Day,
    createdAt: string)

  datatype JournalEntry = JournalEntry(id: string, content: string, mood: Option<string>, date: Day, createdAt: string)

  datatype GratitudeLog = GratitudeLog(id: string, items: seq<string>, date: Day, createdAt: string)

  datatype MoodEntry = MoodEntry(id: string, mood: string, notes: Option<string>, date: Day, createdAt: string)

  datatype MindfulnessState = MindfulnessState(
    meditations: seq<MeditationSession>,
    journals: seq<JournalEntry>,
    gratitudeLogs: seq<GratitudeLog>,
    moods: seq<MoodEntry>,
    meditationGoal: int)

  datatype StreakMode = All | Any

  /** `theme` and `style` are strings: values loaded from storage are cast, never checked. */
  datatype AppSettings = AppSettings(streakMode: StreakMode, theme: string, style: string)

  datatype AppState = AppState(
    user: Option<User>,
    financial: FinancialState,
    health: HealthState,
    mindfulness: MindfulnessState,
    dailyChallenges: seq<DailyChallenge>,
    settings: AppSettings,
    isLoading: bool)

  /** The numeric keys of `Streaks` that UPDATE_STREAK can target. */
  datatype StreakKey = FinancialStreak | HealthStreak | MindfulnessStreak | OverallStreak

  /** `Partial<AppSettings>`: an absent key is `None`. */
  datatype SettingsPatch = SettingsPatch(streakMode: Option<StreakMode>, theme: Option<string>, style: Option<string>)

  /** `Partial<AppState>`: an absent key is `None`; `user` may be present and null. */
  datatype StatePatch = StatePatch(
    user: Option<Option<User>>,
    financial: Option<FinancialState>,
    health: Option<HealthState>,
    mindfulness: Option<MindfulnessState>,
    dailyChallenges: Option<seq<DailyChallenge>>,
    settings: Option<AppSettings>)

  /** The closed `AppAction` union. */
  datatype AppAction =
    | SetUser(user: User)
    | AddXP(amount: int)
    | UnlockAchievement(achievementId: string)
    | UpdateStreak(key: StreakKey, value: int)
    | SetLoading(loading: bool)
    | AddExpense(expense: Expense)
    | DeleteExpense(expenseId: string)
    | SetBudget(budget: Budget)
    | AddFinancialGoal(goal: FinancialGoal)
    | UpdateFinancialGoal(updated: FinancialGoal)
    | AddWorkout(workout: Workout)
    | LogWater(log: WaterLog)
    | AddMeal(meal: MealLog)
    | AddMeditation(meditation: MeditationSession)
    | AddJournal(journal: JournalEntry)
    | AddGratitude(gratitude: GratitudeLog)
    | AddMood(moodEntry: MoodEntry)
    | UpdateSettings(patch: SettingsPatch)
    | SetDailyChallenges(challenges: seq<DailyChallenge>)
    | CompleteChallenge(challengeId: string)
    | LoadState(payload: StatePatch)
}
