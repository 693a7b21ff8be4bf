/**
 * The app's records (`src/types/index.ts`): meals, water logs, the AI
 * analysis request and response, and the enumerations the screens use.
 */
module Records {
  import opened Common

  /** One calendar day; `d - n` is the day `n` days before `d`. */
  type DayKey = int

  /** A signed-in user's id. Auth ids are never empty, so `!userId` holds exactly when there is no user. */
  type UserId = s: string | s != "" witness "u"

  datatype Source = Ai | Manual
  datatype Confidence = Low | Medium | High
  datatype AiModel = Gemini | OpenAi
  datatype GoalMode = Cut | Maintain | Gain
  datatype ActivityLevel = Sedentary | Light | Moderate | Active | SuperActive
  datatype Sex = Male | Female

  /** A stored meal; `createdAt` is the creation time in milliseconds. */
  datatype Meal = Meal(
    id: string,
    userId: UserId,
    imageUrl: Option<string>,
    description: Option<string>,
    calories: real,
    protein: real,
    carbs: real,
    fat: real,
    confidence: Option<Confidence>,
    source: Source,
    aiModel: Option<AiModel>,
    mealDescription: Option<string>,
    createdAt: int)

  /** A stored water log; `createdAt` is the creation time in milliseconds. */
  datatype HydrationLog = HydrationLog(id: string, userId: UserId, amountMl: int, createdAt: int)

  /** The fields of a meal a client inserts; the backend adds id, owner and timestamp. */
  datatype MealDraft = MealDraft(
    calories: Num,
    protein: Num,
    carbs: Num,
    fat: Num,
    source: Source,
    description: Option<string>)

  /** The progress steps of an AI analysis. */
  datatype AnalysisStep =
    | Uploading | Analyzing | Extracting | Completing | Done
    | Parsing | Estimating | Finalizing

  /** The body sent to the analysis endpoint. */
  datatype AnalysisRequest = AnalysisRequest(userId: UserId, imageUrl: Option<string>, description: Option<string>)

  /** The analysis endpoint's answer. */
  datatype AnalysisResponse = AnalysisResponse(
    calories: real,
    protein: real,
    carbs: real,
    fat: real,
    confidence: Confidence,
    mealDescription: Option<string>,
    aiModelUsed: Option<AiModel>)

  /** The per-day totals shown on the dashboard. */
  datatype DailySummary = DailySummary(
    totalCalories: real,
    totalProtein: real,
    totalCarbs: real,
    totalFat: real,
    totalWater: int,
    mealsCount: nat)
}
