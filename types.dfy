/**
  Shared shapes: the processing status of a record, a user's goals and the
  weekly summary with its three domain analyses.
*/
module Types {
  import opened Wrappers

  /** A Firestore timestamp, in milliseconds. */
  type Timestamp = int

  /** The inclusive range filter `created_at >= start && created_at <= end` of every weekly query. */
  predicate InWindow(t: Timestamp, start: Timestamp, end: Timestamp)
  {
    start <= t <= end
  }

  /** The upload folders a photo can come from; `Name()` is the folder's name. */
  datatype ImageCheckType = Meals | Digestions | Profile
  {
    function Name(): string
    {
      match this
      case Meals => "meals"
      case Digestions => "digestions"
      case Profile => "profile"
    }
  }

  /** Reads a folder name back as an upload type, if it is one. */
  function TypeFromName(s: string): (r: Option<ImageCheckType>)
    ensures r.Some? ==> r.value.Name() == s
    ensures r.None? ==> forall t: ImageCheckType :: t.Name() != s
  {
    if s == "meals" then Some(Meals)
    else if s == "digestions" then Some(Digestions)
    else if s == "profile" then Some(Profile)
    else None
  }

  /** The statuses a record is declared to move through. */
  datatype ProcessingStatus = ToBeProcessed | Processing | Processed | Failed
  {
    /** The string stored in a record's `status` field. */
    function Name(): string
    {
      match this
      case ToBeProcessed => "to_be_processed"
      case Processing => "processing"
      case Processed => "processed"
      case Failed => "failed"
    }
  }

  /** Reads a stored `status` string back as a declared status, if it is one. */
  function StatusFromName(s: string): (r: Option<ProcessingStatus>)
    ensures r.Some? ==> r.value.Name() == s
    ensures r.None? ==> forall st: ProcessingStatus :: st.Name() != s
  {
    if s == "to_be_processed" then Some(ToBeProcessed)
    else if s == "processing" then Some(Processing)
    else if s == "processed" then Some(Processed)
    else if s == "failed" then Some(Failed)
    else None
  }

  /** Macro targets, in percent of total calories. */
  datatype MacroTargets = MacroTargets(proteins: real, carbs: real, fats: real)

  datatype UserGoals = UserGoals(
    calories: real,
    water: real,
    macros: MacroTargets,
    bristol_score: real,
    updatedAt: Timestamp)

  datatype WaterAnalysis = WaterAnalysis(totalIntake: real, dailyAverage: real, daysMetTarget: nat)

  datatype AverageMacros = AverageMacros(carbs: real, proteins: real, fats: real)

  datatype NutritionAnalysis = NutritionAnalysis(
    totalCalories: real,
    averageMacros: AverageMacros,
    commonIngredients: seq<string>,
    mealsCount: nat,
    averageCaloriesPerMeal: real,
    daysMetCalorieTarget: nat,
    daysMetProteinTarget: nat,
    daysMetCarbsTarget: nat,
    daysMetFatTarget: nat)

  datatype Level = Low | High

  /** "Low/High bristol score on <day>: <average>", kept as its three parts. */
  datatype Concern = Concern(level: Level, day: string, average: real)

  datatype CommonCharacteristics = CommonCharacteristics(colors: seq<string>, consistencies: seq<string>)

  datatype DigestionSummary = DigestionSummary(
    frequency: nat,
    bristolScaleDistribution: map<string, nat>,
    commonCharacteristics: CommonCharacteristics,
    concerns: seq<Concern>)

  datatype CorrelationAnalysisResult = CorrelationAnalysisResult(
    waterAndDigestion: seq<string>,
    dietAndDigestion: seq<string>)

  datatype WeeklySummary = WeeklySummary(
    userID: string,
    weekStartDate: Timestamp,
    weekEndDate: Timestamp,
    waterAnalysis: WaterAnalysis,
    nutritionAnalysis: NutritionAnalysis,
    digestionAnalysis: DigestionSummary,
    correlations: CorrelationAnalysisResult,
    created_at: Timestamp)
}
