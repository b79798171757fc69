/**
 * The records and closed enumerations shared by the screens: the AI's
 * analysis result, the user profile, meal entries and the daily log.
 */
module Types {
  import opened JsValues

  /** The app's top-level screen state. */
  datatype AppStatus = Idle | Analyzing | Success | Error

  datatype Language = En | Zh

  datatype Gender = Male | Female

  datatype Goal = Lose | Maintain | Gain

  datatype ActivityLevel = Sedentary | Light | Moderate | Active

  datatype GiLevel = Low | Medium | High

  /**
   * One food item of an analysis. Its numeric fields come from the AI's JSON
   * or from an edit box, so each may be NaN. `glycemicLoad` is documented as
   * GI times carbs over 100.
   */
  datatype FoodItem = FoodItem(
    name: string,
    giValue: Number,
    giLevel: GiLevel,
    glycemicLoad: Number,
    portionSize: string,
    caloriesApprox: Number,
    carbsG: Number,
    proteinG: Number,
    fatG: Number)

  /** The meal's totals; `overallHealthScore` is documented to lie in 1..10. */
  datatype AnalysisSummary = AnalysisSummary(
    totalCalories: real,
    totalCarbs: real,
    totalProtein: real,
    totalFat: real,
    overallHealthScore: real,
    mealType: string,
    shortDescription: string)

  datatype NutritionalAdvice = NutritionalAdvice(adviceList: seq<string>)

  /** What the analysis service hands back, treated as an opaque value. */
  datatype AnalysisResult = AnalysisResult(
    isFood: bool,
    requestId: string,
    analysisSummary: AnalysisSummary,
    foodDetails: seq<FoodItem>,
    nutritionalAdvice: NutritionalAdvice)

  /** The documented range of the health score: an assumption about the AI, enforced nowhere. */
  ghost predicate HealthScoreInRange(s: AnalysisSummary)
  {
    1.0 <= s.overallHealthScore <= 10.0
  }

  /**
   * The user's inputs together with the derived `bmr` and `tdee`; `tdee` is
   * the daily calorie target.
   */
  datatype UserProfile = UserProfile(
    heightCm: int,
    weightKg: int,
    age: int,
    gender: Gender,
    activity: ActivityLevel,
    goal: Goal,
    bmr: int,
    tdee: int)

  /** One logged meal; `items` holds only the names of its food items. */
  datatype MealEntry = MealEntry(
    id: string,
    timestamp: int,
    name: string,
    calories: real,
    carbs: real,
    protein: real,
    fat: real,
    items: seq<string>)

  /** Today's meals, in the order they were added; `date` is `YYYY-MM-DD`. */
  datatype DailyLog = DailyLog(date: string, entries: seq<MealEntry>)
}
