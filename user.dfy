/**
  A user's goals, read from the `user_goals` store or created from the
  defaults on first use, and the weekly summary that puts the three analyses
  and the AI correlations together and appends it to `weekly_summaries`.
*/
module User {
  import opened Wrappers
  import opened Folds
  import opened Types
  import Water
  import Meal
  import Digestion
  import AI

  const GoalsErrorPrefix: string := "Failed to fetch user goals: "

  /** `DEFAULT_GOALS`; `loadedAt` is the `new Date()` taken when the module is loaded. */
  function DefaultGoals(loadedAt: Timestamp): UserGoals
  {
    UserGoals(2200.0, 2000.0, MacroTargets(30.0, 40.0, 30.0), 4.0, loadedAt)
  }

  // ------------------------------------------------------------- goals

  /**
    What `fetchUserGoals` returns: the stored goals, or the defaults when none
    are stored; `storeError` is the message of an error the store raises.
  */
  function GoalsOutcome(goals: map<string, UserGoals>, userId: string, storeError: Option<string>, loadedAt: Timestamp)
    : Result<UserGoals, string>
  {
    match storeError
    case Some(message) => Failure(GoalsErrorPrefix + message)
    case None => if userId in goals then Success(goals[userId]) else Success(DefaultGoals(loadedAt))
  }

  /** The goals store after `fetchUserGoals`: the defaults are written only when nothing was stored. */
  function GoalsAfter(goals: map<string, UserGoals>, userId: string, storeError: Option<string>, loadedAt: Timestamp)
    : map<string, UserGoals>
  {
    if storeError.None? && userId !in goals then goals[userId := DefaultGoals(loadedAt)] else goals
  }

  /** Stored goals are returned as they are, and nothing is written. */
  lemma StoredGoalsReturned(goals: map<string, UserGoals>, userId: string, loadedAt: Timestamp)
    requires userId in goals
    ensures GoalsOutcome(goals, userId, None, loadedAt) == Success(goals[userId])
    ensures GoalsAfter(goals, userId, None, loadedAt) == goals
  {
  }

  /**
    Without stored goals, the defaults (2200 calories, 2000 water, macros
    30/40/30, Bristol score 4) are stored under the user and returned.
  */
  lemma MissingGoalsDefaulted(goals: map<string, UserGoals>, userId: string, loadedAt: Timestamp)
    requires userId !in goals
    ensures var r := GoalsOutcome(goals, userId, None, loadedAt);
      && r.Success?
      && r.value.calories == 2200.0 && r.value.water == 2000.0
      && r.value.macros == MacroTargets(30.0, 40.0, 30.0) && r.value.bristol_score == 4.0
      && GoalsAfter(goals, userId, None, loadedAt) == goals[userId := r.value]
  {
  }

  /** A second call returns what the first stored or found, and writes nothing. */
  lemma SecondFetchReadsStored(goals: map<string, UserGoals>, userId: string, t1: Timestamp, t2: Timestamp)
    ensures var after := GoalsAfter(goals, userId, None, t1);
      && GoalsOutcome(after, userId, None, t2) == GoalsOutcome(goals, userId, None, t1)
      && GoalsAfter(after, userId, None, t2) == after
  {
  }

  /** A store error is rethrown with the prefix "Failed to fetch user goals: " and nothing is written. */
  lemma StoreErrorRethrown(goals: map<string, UserGoals>, userId: string, message: string, loadedAt: Timestamp)
    ensures var r := GoalsOutcome(goals, userId, Some(message), loadedAt);
      && r.Failure?
      && |r.error| >= |GoalsErrorPrefix| && r.error[..|GoalsErrorPrefix|] == GoalsErrorPrefix
      && r.error[|GoalsErrorPrefix|..] == message
      && GoalsAfter(goals, userId, Some(message), loadedAt) == goals
  {
  }

  // ------------------------------------------------------------- summary

  /**
    What the week depends on besides the stored records: the calendar day of a
    timestamp, the load time of `DEFAULT_GOALS`, the error the goals store raises
    for a user (if any), the model's reply to a correlation payload and
    `JSON.parse`.
  */
  datatype Environment = Environment(
    dayOf: Timestamp -> Key,
    loadedAt: Timestamp,
    goalsError: string -> Option<string>,
    ask: AI.AnalysisData -> Result<string, string>,
    parse: string -> Result<CorrelationAnalysisResult, string>)

  /** The three analyses of a week's records, with the user's goals. */
  datatype Analyses = Analyses(
    water: WaterAnalysis,
    nutrition: NutritionAnalysis,
    digestion: DigestionSummary)

  /** The three analyses, or the rejection of the digestion analysis. */
  function AnalysesOf(water: seq<Water.WaterIntakeRecord>, meals: seq<Meal.ImageCheckRecord>,
                      digestions: seq<Digestion.DigestionRecord>, goals: UserGoals, dayOf: Timestamp -> Key)
    : Result<Analyses, string>
  {
    match Digestion.DigestionSummaryOf(digestions, goals, dayOf)
    case Failure(e) => Failure(e)
    case Success(digestion) =>
      Success(Analyses(
        Water.WaterAnalysisOf(water, goals, dayOf),
        Meal.NutritionAnalysisOf(meals, goals, dayOf, Meal.CommonIngredientsOf(meals)),
        digestion))
  }

  /** The three `await analyze...` steps, in order; a rejected step rejects the call. */
  method AnalyzeWeek(water: seq<Water.WaterIntakeRecord>, meals: seq<Meal.ImageCheckRecord>,
                     digestions: seq<Digestion.DigestionRecord>, goals: UserGoals, dayOf: Timestamp -> Key)
    returns (r: Result<Analyses, string>)
    ensures r == AnalysesOf(water, meals, digestions, goals, dayOf)
  {
    var waterAnalysis := Water.AnalyzeWaterIntake(water, goals, dayOf);
    var nutritionAnalysis := Meal.AnalyzeNutrition(meals, goals, dayOf);
    var digestionAnalysis := Digestion.AnalyzeDigestion(digestions, goals, dayOf);
    if digestionAnalysis.Failure? {
      return Failure(digestionAnalysis.error);
    }
    r := Success(Analyses(waterAnalysis, nutritionAnalysis, digestionAnalysis.value));
  }

  /**
    The rest of the week once the goals and records are in: the three
    analyses, which may throw, then the correlations, which may throw.
  */
  function WeekOutcome(water: seq<Water.WaterIntakeRecord>, meals: seq<Meal.ImageCheckRecord>,
                       digestions: seq<Digestion.DigestionRecord>, userId: string,
                       start: Timestamp, end: Timestamp, createdAt: Timestamp, goals: UserGoals, env: Environment)
    : Result<WeeklySummary, string>
  {
    match AnalysesOf(water, meals, digestions, goals, env.dayOf)
    case Failure(e) => Failure(e)
    case Success(a) =>
      match AI.CorrelationsOf(water, meals, digestions, env.ask, env.parse)
      case Failure(e) => Failure(e)
      case Success(c) => Success(WeeklySummary(userId, start, end, a.water, a.nutrition, a.digestion, c, createdAt))
  }

  /** What `generateUserWeeklySummary` produces or throws, given the store's contents. */
  function SummaryOutcome(water: seq<Water.WaterIntakeRecord>, meals: seq<Meal.ImageCheckRecord>,
                          digestions: seq<Digestion.DigestionRecord>, goals: map<string, UserGoals>,
                          userId: string, start: Timestamp, end: Timestamp, createdAt: Timestamp, env: Environment)
    : Result<WeeklySummary, string>
  {
    match GoalsOutcome(goals, userId, env.goalsError(userId), env.loadedAt)
    case Failure(e) => Failure(e)
    case Success(userGoals) =>
      WeekOutcome(Water.FetchWaterRecords(water, userId, start, end),
                  Meal.FetchMealRecords(meals, userId, start, end),
                  Digestion.FetchDigestionRecords(digestions, userId, start, end),
                  userId, start, end, createdAt, userGoals, env)
  }

  /**
    A summary belongs to the user and the window it was asked for, and its
    analyses are those of the user's records in the window: the water total is
    the sum of the amounts, the nutrition totals are the meal module's
    carbohydrate-based ones, the digestion frequency is the number of records.
  */
  lemma SummaryComposition(water: seq<Water.WaterIntakeRecord>, meals: seq<Meal.ImageCheckRecord>,
                           digestions: seq<Digestion.DigestionRecord>, goals: map<string, UserGoals>,
                           userId: string, start: Timestamp, end: Timestamp, createdAt: Timestamp, env: Environment)
    requires SummaryOutcome(water, meals, digestions, goals, userId, start, end, createdAt, env).Success?
    ensures var s := SummaryOutcome(water, meals, digestions, goals, userId, start, end, createdAt, env).value;
      var m := Meal.FetchMealRecords(meals, userId, start, end);
      && s.userID == userId && s.weekStartDate == start && s.weekEndDate == end && s.created_at == createdAt
      && s.waterAnalysis.totalIntake == Sum(Water.FetchWaterRecords(water, userId, start, end), Water.Amount)
      && s.nutritionAnalysis.totalCalories == Sum(m, Meal.Carbs)
      && s.nutritionAnalysis.mealsCount == |m|
      && s.digestionAnalysis.frequency == |Digestion.FetchDigestionRecords(digestions, userId, start, end)|
      && Digestion.AllScaled(Digestion.FetchDigestionRecords(digestions, userId, start, end))
      && env.goalsError(userId).None?
  {
    var userGoals := GoalsOutcome(goals, userId, env.goalsError(userId), env.loadedAt).value;
    WeekComposition(Water.FetchWaterRecords(water, userId, start, end),
                    Meal.FetchMealRecords(meals, userId, start, end),
                    Digestion.FetchDigestionRecords(digestions, userId, start, end),
                    userId, start, end, createdAt, userGoals, env);
  }

  /** The week's summary, once the goals are in, as `SummaryComposition` states it. */
  lemma WeekComposition(water: seq<Water.WaterIntakeRecord>, meals: seq<Meal.ImageCheckRecord>,
                        digestions: seq<Digestion.DigestionRecord>, userId: string,
                        start: Timestamp, end: Timestamp, createdAt: Timestamp, goals: UserGoals, env: Environment)
    requires WeekOutcome(water, meals, digestions, userId, start, end, createdAt, goals, env).Success?
    ensures var s := WeekOutcome(water, meals, digestions, userId, start, end, createdAt, goals, env).value;
      && s.userID == userId && s.weekStartDate == start && s.weekEndDate == end && s.created_at == createdAt
      && s.waterAnalysis.totalIntake == Sum(water, Water.Amount)
      && s.nutritionAnalysis.totalCalories == Sum(meals, Meal.Carbs)
      && s.nutritionAnalysis.mealsCount == |meals|
      && s.digestionAnalysis.frequency == |digestions|
      && Digestion.AllScaled(digestions)
  {
  }

  /**
    A failing goals store, a week's record without a Bristol scale or a failing
    correlation request makes the whole call fail, in that order.
  */
  lemma SummaryFailures(water: seq<Water.WaterIntakeRecord>, meals: seq<Meal.ImageCheckRecord>,
                        digestions: seq<Digestion.DigestionRecord>, goals: map<string, UserGoals>,
                        userId: string, start: Timestamp, end: Timestamp, createdAt: Timestamp, env: Environment)
    ensures var r := SummaryOutcome(water, meals, digestions, goals, userId, start, end, createdAt, env);
      var correlations := AI.CorrelationsOf(Water.FetchWaterRecords(water, userId, start, end),
                                            Meal.FetchMealRecords(meals, userId, start, end),
                                            Digestion.FetchDigestionRecords(digestions, userId, start, end),
                                            env.ask, env.parse);
      var week := Digestion.FetchDigestionRecords(digestions, userId, start, end);
      && (env.goalsError(userId).Some? ==> r == Failure(GoalsErrorPrefix + env.goalsError(userId).value))
      && (env.goalsError(userId).None? && !Digestion.AllScaled(week) ==> r == Failure(Digestion.ScaleMissingError))
      && (env.goalsError(userId).None? && Digestion.AllScaled(week) && correlations.Failure? ==> r == Failure(correlations.error))
  {
  }

  // ------------------------------------------------------------- store

  /** The collections the weekly summary reads and writes. */
  class Database {
    var water: seq<Water.WaterIntakeRecord>
    var meals: seq<Meal.ImageCheckRecord>
    var digestions: seq<Digestion.DigestionRecord>
    var goals: map<string, UserGoals>
    var summaries: seq<WeeklySummary>

    constructor(water: seq<Water.WaterIntakeRecord>, meals: seq<Meal.ImageCheckRecord>,
                digestions: seq<Digestion.DigestionRecord>, goals: map<string, UserGoals>)
      ensures this.water == water && this.meals == meals && this.digestions == digestions
      ensures this.goals == goals && summaries == []
    {
      this.water, this.meals, this.digestions := water, meals, digestions;
      this.goals, summaries := goals, [];
    }

    /** `fetchUserGoals`: read the user's goals, writing the defaults when there are none. */
    method FetchUserGoals(userId: string, storeError: Option<string>, loadedAt: Timestamp)
      returns (r: Result<UserGoals, string>)
      modifies this
      ensures r == GoalsOutcome(old(goals), userId, storeError, loadedAt)
      ensures goals == GoalsAfter(old(goals), userId, storeError, loadedAt)
      ensures water == old(water) && meals == old(meals) && digestions == old(digestions)
      ensures summaries == old(summaries)
    {
      if storeError.Some? {
        return Failure(GoalsErrorPrefix + storeError.value);
      }
      if userId in goals {
        return Success(goals[userId]);
      }
      goals := goals[userId := DefaultGoals(loadedAt)];
      r := Success(DefaultGoals(loadedAt));
    }

    /**
      `generateUserWeeklySummary`: fetch the goals and the week's records, then
      summarize them.
    */
    method GenerateUserWeeklySummary(userId: string, startDate: Timestamp, endDate: Timestamp,
                                     createdAt: Timestamp, env: Environment, registry: AI.Registry)
      returns (r: Result<WeeklySummary, string>)
      modifies this, registry
      ensures r == SummaryOutcome(old(water), old(meals), old(digestions), old(goals),
                                  userId, startDate, endDate, createdAt, env)
      ensures goals == GoalsAfter(old(goals), userId, env.goalsError(userId), env.loadedAt)
      ensures summaries == old(summaries) + (if r.Success? then [r.value] else [])
      ensures water == old(water) && meals == old(meals) && digestions == old(digestions)
    {
      var goalsResult := FetchUserGoals(userId, env.goalsError(userId), env.loadedAt);
      var waterRecords := Water.FetchWaterRecords(water, userId, startDate, endDate);
      var mealRecords := Meal.FetchMealRecords(meals, userId, startDate, endDate);
      var digestionRecords := Digestion.FetchDigestionRecords(digestions, userId, startDate, endDate);
      if goalsResult.Failure? {
        return Failure(goalsResult.error);
      }
      r := Summarize(waterRecords, mealRecords, digestionRecords, userId, startDate, endDate, createdAt,
                     goalsResult.value, env, registry);
    }

    /**
      The second half of `generateUserWeeklySummary`: run the three analyses,
      ask the AI service for the correlations and append the summary to
      `weekly_summaries`; a rejection on the way stores nothing.
    */
    method Summarize(waterRecords: seq<Water.WaterIntakeRecord>, mealRecords: seq<Meal.ImageCheckRecord>,
                     digestionRecords: seq<Digestion.DigestionRecord>, userId: string,
                     startDate: Timestamp, endDate: Timestamp, createdAt: Timestamp,
                     userGoals: UserGoals, env: Environment, registry: AI.Registry)
      returns (r: Result<WeeklySummary, string>)
      modifies this`summaries, registry
      ensures r == WeekOutcome(waterRecords, mealRecords, digestionRecords, userId, startDate, endDate,
                               createdAt, userGoals, env)
      ensures summaries == old(summaries) + (if r.Success? then [r.value] else [])
    {
      var analyses := AnalyzeWeek(waterRecords, mealRecords, digestionRecords, userGoals, env.dayOf);
      if analyses.Failure? {
        return Failure(analyses.error);
      }
      var service := registry.GetInstance();
      var correlations := service.GenerateCorrelations(waterRecords, mealRecords, digestionRecords, env.ask, env.parse);
      if correlations.Failure? {
        return Failure(correlations.error);
      }
      var summary := WeeklySummary(
        userId, startDate, endDate, analyses.value.water, analyses.value.nutrition, analyses.value.digestion,
        correlations.value, createdAt);
      summaries := summaries + [summary];
      r := Success(summary);
    }
  }
}
