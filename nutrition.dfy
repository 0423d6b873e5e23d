/**
  The alternative nutrition analysis over plain meal records with numeric
  `calories`, `protein`, `carbs` and `fat` fields: each field is summed into
  its own total and its own per-day sum, the macro averages per day are not
  rounded, and no ingredients are ranked.
*/
module Nutrition {
  import opened Folds
  import opened Numbers
  import opened Types
  import opened Daily

  datatype MealRecord = MealRecord(
    id: string,
    name: string,
    calories: real,
    protein: real,
    carbs: real,
    fat: real,
    created_at: Timestamp,
    userID: string)

  function CaloriesOf(r: MealRecord): real { r.calories }
  function ProteinOf(r: MealRecord): real { r.protein }
  function CarbsOfRecord(r: MealRecord): real { r.carbs }
  function FatOf(r: MealRecord): real { r.fat }

  /** Each per-day sum is fed from the field of the same name. */
  const RecordFields: Fields<MealRecord> := Fields(CaloriesOf, ProteinOf, CarbsOfRecord, FatOf)

  function DayKey(dayOf: Timestamp -> Key): MealRecord -> Key
  {
    (r: MealRecord) => dayOf(r.created_at)
  }

  function Days(records: seq<MealRecord>, dayOf: Timestamp -> Key): seq<Key>
  {
    KeysInOrder(records, DayKey(dayOf))
  }

  function DailyNutrition(records: seq<MealRecord>, dayOf: Timestamp -> Key): map<Key, DayTotals>
  {
    DailyTotals(records, DayKey(dayOf), RecordFields)
  }

  /** `daysWithRecords > 0 ? total / daysWithRecords : 0`, not rounded. */
  function PerDay(total: real, days: nat): real
  {
    if days > 0 then total / days as real else 0.0
  }

  /** The analysis the source computes, as a function of the records, the goals and the calendar. */
  function NutritionAnalysisOf(records: seq<MealRecord>, goals: UserGoals, dayOf: Timestamp -> Key)
    : (r: NutritionAnalysis)
    ensures r.mealsCount == |records|
    ensures r.commonIngredients == []
    ensures r.daysMetCalorieTarget <= |Days(records, dayOf)| && r.daysMetProteinTarget <= |Days(records, dayOf)|
    ensures r.daysMetCarbsTarget <= |Days(records, dayOf)| && r.daysMetFatTarget <= |Days(records, dayOf)|
    ensures records == [] ==> r == NutritionAnalysis(0.0, AverageMacros(0.0, 0.0, 0.0), [], 0, 0.0, 0, 0, 0, 0)
  {
    var totalCalories := Sum(records, CaloriesOf);
    var mealsCount := |records|;
    var daily := DailyNutrition(records, dayOf);
    var days := Days(records, dayOf);
    NutritionAnalysis(
      totalCalories,
      AverageMacros(
        PerDay(Sum(records, CarbsOfRecord), |days|),
        PerDay(Sum(records, ProteinOf), |days|),
        PerDay(Sum(records, FatOf), |days|)),
      [],
      mealsCount,
      if mealsCount > 0 then totalCalories / mealsCount as real else 0.0,
      CountAtLeast(days, Column(daily, Calories), Target(goals, Calories)),
      CountAtLeast(days, Column(daily, Protein), Target(goals, Protein)),
      CountAtLeast(days, Column(daily, CarbsOf), Target(goals, CarbsOf)),
      CountAtLeast(days, Column(daily, Fat), Target(goals, Fat)))
  }

  /** `analyzeNutrition` in the nutrition module: the totals are folds, the per-day dictionary is built in place. */
  method AnalyzeNutrition(records: seq<MealRecord>, goals: UserGoals, dayOf: Timestamp -> Key)
    returns (r: NutritionAnalysis)
    ensures r == NutritionAnalysisOf(records, goals, dayOf)
  {
    var totalCalories := Sum(records, CaloriesOf);
    var totalProtein := Sum(records, ProteinOf);
    var totalCarbs := Sum(records, CarbsOfRecord);
    var totalFat := Sum(records, FatOf);
    var mealsCount := |records|;
    var averageCaloriesPerMeal := if mealsCount > 0 then totalCalories / mealsCount as real else 0.0;

    var dailyNutrition, days := BuildDailyTotals(records, DayKey(dayOf), RecordFields);
    var daysWithRecords := |days|;
    var averageMacros := AverageMacros(
      PerDay(totalCarbs, daysWithRecords),
      PerDay(totalProtein, daysWithRecords),
      PerDay(totalFat, daysWithRecords));
    var commonIngredients: seq<string> := [];
    r := NutritionAnalysis(
      totalCalories, averageMacros, commonIngredients, mealsCount, averageCaloriesPerMeal,
      CountAtLeast(days, Column(dailyNutrition, Calories), Target(goals, Calories)),
      CountAtLeast(days, Column(dailyNutrition, Protein), Target(goals, Protein)),
      CountAtLeast(days, Column(dailyNutrition, CarbsOf), Target(goals, CarbsOf)),
      CountAtLeast(days, Column(dailyNutrition, Fat), Target(goals, Fat)));
  }

  // ------------------------------------------------------------ properties

  /**
    Each nutrient's per-day sums add up to the total of its own field, and a
    day's sum is the sum of that field over the day's meals.
  */
  lemma DaySumsAddUp(records: seq<MealRecord>, dayOf: Timestamp -> Key, n: Nutrient)
    ensures SumOver(Days(records, dayOf), Column(DailyNutrition(records, dayOf), n)) == Sum(records, RecordFields.Of(n))
    ensures forall d :: d in DailyNutrition(records, dayOf) ==>
      Get(DailyNutrition(records, dayOf)[d], n) == Sum(Filter(records, DayKey(dayOf), d), RecordFields.Of(n))
  {
    Daily.DaySumsAddUp(records, DayKey(dayOf), RecordFields, n);
    forall d | d in DailyNutrition(records, dayOf)
      ensures Get(DailyNutrition(records, dayOf)[d], n) == Sum(Filter(records, DayKey(dayOf), d), RecordFields.Of(n))
    {
      DaySumIsSumOfDay(records, DayKey(dayOf), RecordFields, n, d);
    }
  }

  /** There is at least one day exactly when there is at least one meal. */
  lemma DaysExistIffMeals(records: seq<MealRecord>, dayOf: Timestamp -> Key)
    ensures |Days(records, dayOf)| > 0 <==> |records| > 0
  {
    if |records| > 0 {
      KeysInOrderFacts(records, DayKey(dayOf));
      assert DayKey(dayOf)(records[0]) in Days(records, dayOf);
    }
  }

  /** The unrounded average: multiplied back by the number of days it gives the total, and it is 0 without days. */
  lemma PerDaySpreadsTotal(total: real, days: nat)
    ensures days > 0 ==> PerDay(total, days) * days as real == total
    ensures days == 0 ==> PerDay(total, days) == 0.0
  {
    if days > 0 {
      SpreadEvenly(total, days);
    }
  }

  /** The per-meal average spreads the calories evenly over the meals, and is 0 without meals. */
  lemma MealAverageSpreadsCalories(records: seq<MealRecord>, goals: UserGoals, dayOf: Timestamp -> Key)
    ensures var a := NutritionAnalysisOf(records, goals, dayOf);
      && (|records| > 0 ==> a.averageCaloriesPerMeal * |records| as real == a.totalCalories)
      && (|records| == 0 ==> a.averageCaloriesPerMeal == 0.0)
  {
    var a := NutritionAnalysisOf(records, goals, dayOf);
    if |records| > 0 {
      SpreadEvenly(a.totalCalories, |records|);
    }
  }

  /** Each macro average is that macro's total divided by the number of days, not rounded, or 0 without days. */
  lemma MacroAveragesArePerDay(records: seq<MealRecord>, goals: UserGoals, dayOf: Timestamp -> Key)
    ensures var a, days := NutritionAnalysisOf(records, goals, dayOf), |Days(records, dayOf)|;
      && a.averageMacros.carbs == PerDay(Sum(records, CarbsOfRecord), days)
      && a.averageMacros.proteins == PerDay(Sum(records, ProteinOf), days)
      && a.averageMacros.fats == PerDay(Sum(records, FatOf), days)
      && (days == 0 <==> records == [])
  {
    DaysExistIffMeals(records, dayOf);
  }

  /** Each counter is the number of days whose sum of that nutrient reached its goal. */
  lemma DaysMetCounts(records: seq<MealRecord>, goals: UserGoals, dayOf: Timestamp -> Key, n: Nutrient)
    ensures var daily := DailyNutrition(records, dayOf);
      DaysMet(NutritionAnalysisOf(records, goals, dayOf), n)
        == |set d | d in daily && Get(daily[d], n) >= Target(goals, n)|
  {
    DaysMetIsCardinality(records, DayKey(dayOf), RecordFields, n, Target(goals, n));
  }

  /**
    Meals of 500 and 700 calories on one day and of 600 on another, against a
    calorie goal of 1000: only the first day's 1200 reaches the goal.
  */
  lemma CalorieTargetExample(r1: MealRecord, r2: MealRecord, r3: MealRecord, goals: UserGoals, dayOf: Timestamp -> Key)
    requires r1.calories == 500.0 && r2.calories == 700.0 && r3.calories == 600.0
    requires dayOf(r1.created_at) == dayOf(r2.created_at) != dayOf(r3.created_at)
    requires goals.calories == 1000.0
    ensures NutritionAnalysisOf([r1, r2, r3], goals, dayOf).daysMetCalorieTarget == 1
    ensures NutritionAnalysisOf([r1, r2, r3], goals, dayOf).totalCalories == 1800.0
  {
    var s := [r1, r2, r3];
    var key := DayKey(dayOf);
    var d1, d3 := dayOf(r1.created_at), dayOf(r3.created_at);
    assert s[..2] == [r1, r2] && [r1, r2][..1] == [r1] && [r1][..0] == [];
    assert KeysInOrder([r1], key) == [d1];
    assert KeysInOrder([r1, r2], key) == [d1];
    assert Days(s, dayOf) == [d1, d3];
    var daily := DailyNutrition(s, dayOf);
    assert DailyTotals([r1], key, RecordFields)[d1].calories == 500.0;
    assert DailyTotals([r1, r2], key, RecordFields)[d1].calories == 1200.0;
    assert daily[d1].calories == 1200.0 && daily[d3].calories == 600.0;
    var col := Column(daily, Calories);
    assert [d1, d3][..1] == [d1];
    assert CountAtLeast([d1], col, 1000.0) == 1;
    assert Sum([r1], CaloriesOf) == 500.0;
    assert Sum([r1, r2], CaloriesOf) == 1200.0;
  }

  /** The analysis does not depend on the order in which the query returned the meals. */
  lemma AnalysisOrderIndependent(records: seq<MealRecord>, reordered: seq<MealRecord>, goals: UserGoals, dayOf: Timestamp -> Key)
    requires multiset(records) == multiset(reordered)
    ensures NutritionAnalysisOf(records, goals, dayOf) == NutritionAnalysisOf(reordered, goals, dayOf)
  {
    TotalsOrderIndependent(records, reordered, dayOf);
    DaysMetOrderIndependent(records, reordered, goals, dayOf, Calories);
    DaysMetOrderIndependent(records, reordered, goals, dayOf, Protein);
    DaysMetOrderIndependent(records, reordered, goals, dayOf, CarbsOf);
    DaysMetOrderIndependent(records, reordered, goals, dayOf, Fat);
  }

  lemma TotalsOrderIndependent(records: seq<MealRecord>, reordered: seq<MealRecord>, dayOf: Timestamp -> Key)
    requires multiset(records) == multiset(reordered)
    ensures Sum(records, CaloriesOf) == Sum(reordered, CaloriesOf)
    ensures Sum(records, ProteinOf) == Sum(reordered, ProteinOf)
    ensures Sum(records, CarbsOfRecord) == Sum(reordered, CarbsOfRecord)
    ensures Sum(records, FatOf) == Sum(reordered, FatOf)
    ensures |records| == |reordered| && |Days(records, dayOf)| == |Days(reordered, dayOf)|
  {
    SumPermutation(records, reordered, CaloriesOf);
    SumPermutation(records, reordered, ProteinOf);
    SumPermutation(records, reordered, CarbsOfRecord);
    SumPermutation(records, reordered, FatOf);
    KeysPermutation(records, reordered, DayKey(dayOf));
    assert |multiset(records)| == |multiset(reordered)|;
  }

  lemma DaysMetOrderIndependent(records: seq<MealRecord>, reordered: seq<MealRecord>, goals: UserGoals, dayOf: Timestamp -> Key, n: Nutrient)
    requires multiset(records) == multiset(reordered)
    ensures CountAtLeast(Days(records, dayOf), Column(DailyNutrition(records, dayOf), n), Target(goals, n))
         == CountAtLeast(Days(reordered, dayOf), Column(DailyNutrition(reordered, dayOf), n), Target(goals, n))
  {
    DailyTotalsPermutation(records, reordered, DayKey(dayOf), RecordFields, n, Target(goals, n));
  }

  // ----------------------------------------------------------------- query

  /** `fetchMealRecords` of the nutrition module: the user's records inside the inclusive window, with no status filter. */
  function FetchMealRecords(collection: seq<MealRecord>, userId: string, start: Timestamp, end: Timestamp)
    : (r: seq<MealRecord>)
    ensures forall x :: x in r <==> x in collection && x.userID == userId && InWindow(x.created_at, start, end)
    ensures forall x :: multiset(r)[x] == if x.userID == userId && InWindow(x.created_at, start, end) then multiset(collection)[x] else 0
  {
    Select(collection, (x: MealRecord) => x.userID == userId && InWindow(x.created_at, start, end))
  }
}
