/** Constant gamification data (src/constants/gamification.ts): XP rewards,
    the level table, the achievement catalogue, challenge templates and the
    category tables. Nothing here is computed; the lemmas state the shape the
    rest of the model relies on. */
module Gamification {
  import opened Types

  datatype Rewards = Rewards(
    logExpense: int, stayUnderBudget: int, reachSavingsGoal: int, setFinancialGoal: int,
    completeWorkout: int, logWater: int, logMeal: int, reachStepGoal: int,
    completeMeditation: int, journalEntry: int, gratitudeLog: int, moodCheckIn: int,
    streak7Days: int, streak30Days: int, streak100Days: int)

  const XPRewards: Rewards := Rewards(
    5, 20, 100, 10,
    15, 5, 5, 20,
    10, 10, 5, 5,
    50, 200, 500)

  /** The level table, ascending by threshold. */
  const Levels: seq<LevelEntry> := [
    LevelEntry(1, 0, "Beginner"),
    LevelEntry(2, 100, "Novice"),
    LevelEntry(3, 250, "Apprentice"),
    LevelEntry(4, 500, "Skilled"),
    LevelEntry(5, 1000, "Adept"),
    LevelEntry(6, 1750, "Expert"),
    LevelEntry(7, 2750, "Master"),
    LevelEntry(8, 4000, "Grandmaster"),
    LevelEntry(9, 5500, "Legend"),
    LevelEntry(10, 7500, "Mythic"),
    LevelEntry(11, 10000, "Transcendent"),
    LevelEntry(12, 15000, "Immortal")
  ]

  const MaxLevelXP: int := 15000

  /** The achievement catalogue as (key, entry) pairs, in the source object's order. */
  const Achievements: seq<(string, Achievement)> := [
    ("firstExpense", Achievement("firstExpense", "First Step", "Log your first expense", "💰", FinancialAchievement, 25)),
    ("budgetBoss", Achievement("budgetBoss", "Budget Boss", "Stay under budget for 7 days", "👑", FinancialAchievement, 100)),
    ("savingsChamp", Achievement("savingsChamp", "Savings Champion", "Reach your first savings goal", "🏆", FinancialAchievement, 150)),
    ("firstWorkout", Achievement("firstWorkout", "Iron Will", "Complete your first workout", "💪", HealthAchievement, 25)),
    ("hydrationHero", Achievement("hydrationHero", "Hydration Hero", "Log water intake for 7 days", "💧", HealthAchievement, 75)),
    ("fitnessFreak", Achievement("fitnessFreak", "Fitness Freak", "30-day workout streak", "🏋️", HealthAchievement, 300)),
    ("firstMeditation", Achievement("firstMeditation", "Inner Peace", "Complete your first meditation", "🧘", MindfulnessAchievement, 25)),
    ("journalJourney", Achievement("journalJourney", "Journal Journey", "Write 10 journal entries", "📔", MindfulnessAchievement, 100)),
    ("zenMaster", Achievement("zenMaster", "Zen Master", "Complete 100 meditation sessions", "🌟", MindfulnessAchievement, 500)),
    ("weekStreak", Achievement("weekStreak", "Week Warrior", "Maintain a 7-day streak", "🔥", GeneralAchievement, 50)),
    ("monthStreak", Achievement("monthStreak", "Month Master", "Maintain a 30-day streak", "⚡", GeneralAchievement, 200)),
    ("levelUp5", Achievement("levelUp5", "Rising Star", "Reach level 5", "⭐", GeneralAchievement, 100)),
    ("levelUp10", Achievement("levelUp10", "Elite", "Reach level 10", "💎", GeneralAchievement, 250))
  ]

  datatype ChallengeTemplate = ChallengeTemplate(id: string, title: string, description: string, xpReward: int)

  const FinancialTemplates: seq<ChallengeTemplate> := [
    ChallengeTemplate("noSpend", "No Spend Day", "Don't log any expenses today", 30),
    ChallengeTemplate("logAll", "Track Everything", "Log at least 3 expenses", 20),
    ChallengeTemplate("underBudget", "Budget Keeper", "Stay 20% under daily budget", 25)
  ]

  const HealthTemplates: seq<ChallengeTemplate> := [
    ChallengeTemplate("workout", "Get Moving", "Complete any workout", 20),
    ChallengeTemplate("hydrate", "Stay Hydrated", "Log 8 glasses of water", 15),
    ChallengeTemplate("steps", "Step It Up", "Reach 10,000 steps", 25)
  ]

  const MindfulnessTemplates: seq<ChallengeTemplate> := [
    ChallengeTemplate("meditate", "Calm Mind", "Complete a 10-min meditation", 20),
    ChallengeTemplate("journal", "Reflect", "Write a journal entry", 15),
    ChallengeTemplate("gratitude", "Grateful Heart", "Log 3 things you're grateful for", 15)
  ]

  /** The template pool of one challenge category. */
  function Templates(c: ChallengeCategory): seq<ChallengeTemplate>
  {
    match c
    case FinancialChallenge => FinancialTemplates
    case HealthChallenge => HealthTemplates
    case MindfulnessChallenge => MindfulnessTemplates
  }

  datatype CategoryOption = CategoryOption(id: string, name: string, icon: string, color: string)

  const ExpenseCategories: seq<CategoryOption> := [
    CategoryOption("food", "Food & Dining", "🍔", "#F97316"),
    CategoryOption("transport", "Transport", "🚗", "#3B82F6"),
    CategoryOption("shopping", "Shopping", "🛍️", "#EC4899"),
    CategoryOption("entertainment", "Entertainment", "🎬", "#8B5CF6"),
    CategoryOption("bills", "Bills & Utilities", "📄", "#6366F1"),
    CategoryOption("health", "Health", "💊", "#10B981"),
    CategoryOption("education", "Education", "📚", "#14B8A6"),
    CategoryOption("other", "Other", "📦", "#64748B")
  ]

  const WorkoutTypes: seq<CategoryOption> := [
    CategoryOption("running", "Running", "🏃", "#F97316"),
    CategoryOption("cycling", "Cycling", "🚴", "#3B82F6"),
    CategoryOption("gym", "Gym", "🏋️", "#8B5CF6"),
    CategoryOption("yoga", "Yoga", "🧘", "#06B6D4"),
    CategoryOption("swimming", "Swimming", "🏊", "#0EA5E9"),
    CategoryOption("walking", "Walking", "🚶", "#10B981"),
    CategoryOption("sports", "Sports", "⚽", "#22C55E"),
    CategoryOption("other", "Other", "💪", "#64748B")
  ]

  const MoodOptions: seq<CategoryOption> := [
    CategoryOption("great", "Great", "😄", "#22C55E"),
    CategoryOption("good", "Good", "🙂", "#84CC16"),
    CategoryOption("okay", "Okay", "😐", "#FBBF24"),
    CategoryOption("low", "Low", "😔", "#F97316"),
    CategoryOption("bad", "Bad", "😢", "#EF4444")
  ]

  predicate DistinctOptionIds(s: seq<CategoryOption>)
  {
    forall i, j :: 0 <= i < j < |s| ==> s[i].id != s[j].id
  }

  predicate DistinctTemplateIds(s: seq<ChallengeTemplate>)
  {
    forall i, j :: 0 <= i < j < |s| ==> s[i].id != s[j].id
  }

  /** The level table has twelve entries numbered 1..12, its thresholds run
      from 0 to 15000 and strictly increase, which calculateLevel's early
      `break` relies on. */
  lemma LevelsWellFormed()
    ensures |Levels| == 12
    ensures forall i :: 0 <= i < |Levels| ==> Levels[i].level == i + 1
    ensures Levels[0].minXP == 0 && Levels[|Levels| - 1].minXP == MaxLevelXP
    ensures forall i, j :: 0 <= i < j < |Levels| ==> Levels[i].minXP < Levels[j].minXP
  {
  }

  /** Every XP reward is a positive integer. */
  lemma RewardsPositive()
    ensures XPRewards.logExpense > 0 && XPRewards.stayUnderBudget > 0
    ensures XPRewards.reachSavingsGoal > 0 && XPRewards.setFinancialGoal > 0
    ensures XPRewards.completeWorkout > 0 && XPRewards.logWater > 0
    ensures XPRewards.logMeal > 0 && XPRewards.reachStepGoal > 0
    ensures XPRewards.completeMeditation > 0 && XPRewards.journalEntry > 0
    ensures XPRewards.gratitudeLog > 0 && XPRewards.moodCheckIn > 0
    ensures XPRewards.streak7Days > 0 && XPRewards.streak30Days > 0 && XPRewards.streak100Days > 0
  {
  }

  /** Each catalogue entry carries its own key as id and a positive XP
      reward, and no key occurs twice. */
  lemma AchievementsWellFormed()
    ensures |Achievements| == 13
    ensures forall i :: 0 <= i < |Achievements| ==> Achievements[i].1.id == Achievements[i].0 && Achievements[i].1.xpReward > 0
    ensures forall i, j :: 0 <= i < j < |Achievements| ==> Achievements[i].0 != Achievements[j].0
    ensures Achievements[0] == ("firstExpense", Achievements[0].1) && Achievements[0].1.xpReward == 25
  {
  }

  /** Three templates per category, and the nine ids are pairwise distinct. */
  lemma TemplatesWellFormed()
    ensures forall c :: |Templates(c)| == 3
    ensures DistinctTemplateIds(FinancialTemplates + HealthTemplates + MindfulnessTemplates)
  {
  }

  /** The ids inside each option table are pairwise distinct. */
  lemma OptionTablesDistinct()
    ensures DistinctOptionIds(ExpenseCategories)
    ensures DistinctOptionIds(WorkoutTypes)
    ensures DistinctOptionIds(MoodOptions)
  {
  }
}
