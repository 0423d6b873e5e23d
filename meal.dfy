/**
  The nutrition analysis wired into the weekly summary: totals, per-day sums
  and rounded per-day averages taken from each meal's `caloric_breakdown`,
  the days that met each goal, and the ten most frequent ingredients.

  As written, calories are summed from `caloric_breakdown.carbohydrates`, both
  in the total and per day, so calories always equal carbohydrates.
*/
module Meal {
  import opened Wrappers
  import opened Folds
  import opened Ranking
  import opened Numbers
  import opened Types
  import opened Daily

  datatype Macronutrients = Macronutrients(carbohydrates: real, proteins: real, fats: real)

  datatype NutritionalInformation = NutritionalInformation(calories: real, macronutrients: Macronutrients)

  /** The AI's report on a meal photo; `name` is `image_recognition.name`. */
  datatype NutritionalReport = NutritionalReport(
    name: string,
    ingredient_extraction: seq<string>,
    nutritional_information: NutritionalInformation,
    caloric_breakdown: Macronutrients,
    description: string)

  /** A processed meal record; `status` is the stored string. */
  datatype ImageCheckRecord = ImageCheckRecord(
    id: string,
    userID: string,
    filename: string,
    status: string,
    nutritional_report: NutritionalReport,
    processed_at: Option<Timestamp>,
    created_at: Timestamp,
    imageType: ImageCheckType)

  function Carbs(r: ImageCheckRecord): real
  {
    r.nutritional_report.caloric_breakdown.carbohydrates
  }

  function Proteins(r: ImageCheckRecord): real
  {
    r.nutritional_report.caloric_breakdown.proteins
  }

  function Fats(r: ImageCheckRecord): real
  {
    r.nutritional_report.caloric_breakdown.fats
  }

  function DayKey(dayOf: Timestamp -> Key): ImageCheckRecord -> Key
  {
    (r: ImageCheckRecord) => dayOf(r.created_at)
  }

  function Days(records: seq<ImageCheckRecord>, dayOf: Timestamp -> Key): seq<Key>
  {
    KeysInOrder(records, DayKey(dayOf))
  }

  /** The fields summed per day, as written: the calorie sum is fed from the carbohydrates. */
  const MealFields: Fields<ImageCheckRecord> := Fields(Carbs, Proteins, Carbs, Fats)

  function DailyNutrition(records: seq<ImageCheckRecord>, dayOf: Timestamp -> Key): map<Key, DayTotals>
  {
    DailyTotals(records, DayKey(dayOf), MealFields)
  }

  // ------------------------------------------------- common ingredients

  /** Every ingredient of every meal, meal by meal, in the order the nested `forEach` visits them. */
  function AllIngredients(meals: seq<ImageCheckRecord>): seq<string>
  {
    if |meals| == 0 then []
    else AllIngredients(meals[..|meals| - 1]) + meals[|meals| - 1].nutritional_report.ingredient_extraction
  }

  /** `extractCommonIngredients`: the count entries, stably sorted by count, the first ten names. */
  function CommonIngredientsOf(meals: seq<ImageCheckRecord>): seq<string>
  {
    MostFrequent(AllIngredients(meals), 10)
  }

  /**
    The inner `forEach` of `extractCommonIngredients`: one meal's ingredients
    counted into the dictionary, which so far holds the counts of `before`.
  */
  method CountIngredients(counts: map<Key, nat>, order: seq<Key>, ghost before: seq<Key>, ingredients: seq<Key>)
    returns (counts': map<Key, nat>, order': seq<Key>)
    requires counts == GroupCount(before, Ident) && order == KeysInOrder(before, Ident)
    ensures counts' == GroupCount(before + ingredients, Ident)
    ensures order' == KeysInOrder(before + ingredients, Ident)
  {
    counts', order' := counts, order;
    ghost var seen := before;
    assert before + ingredients[..0] == before;
    for j := 0 to |ingredients|
      invariant seen == before + ingredients[..j]
      invariant counts' == GroupCount(seen, Ident)
      invariant order' == KeysInOrder(seen, Ident)
    {
      var ingredient := ingredients[j];
      IngredientCounted(seen, ingredient);
      if ingredient !in order' {
        order' := order' + [ingredient];
      }
      counts' := counts'[ingredient := CountOr(counts', ingredient) + 1];
      AppendPrefixStep(before, ingredients, j);
      seen := seen + [ingredient];
    }
    assert ingredients[..|ingredients|] == ingredients;
  }

  /** Counting one more ingredient: it is added to the key order if new, and its count goes up by one. */
  lemma IngredientCounted(seen: seq<Key>, x: Key)
    ensures KeysInOrder(seen + [x], Ident)
         == if x in KeysInOrder(seen, Ident) then KeysInOrder(seen, Ident) else KeysInOrder(seen, Ident) + [x]
    ensures GroupCount(seen + [x], Ident) == GroupCount(seen, Ident)[x := CountOr(GroupCount(seen, Ident), x) + 1]
  {
    KeysInOrderSnoc(seen, Ident, x);
    GroupCountSnoc(seen, Ident, x);
  }

  /**
    `extractCommonIngredients`: the count dictionary is filled in place by two
    nested loops; the entries are then sorted by count and the first ten kept.
  */
  method ExtractCommonIngredients(meals: seq<ImageCheckRecord>) returns (r: seq<string>)
    ensures r == CommonIngredientsOf(meals)
  {
    var ingredientCounts: map<Key, nat> := map[];
    var order: seq<Key> := [];
    for i := 0 to |meals|
      invariant ingredientCounts == GroupCount(AllIngredients(meals[..i]), Ident)
      invariant order == KeysInOrder(AllIngredients(meals[..i]), Ident)
    {
      ingredientCounts, order := CountIngredients(ingredientCounts, order, AllIngredients(meals[..i]),
        meals[i].nutritional_report.ingredient_extraction);
      assert meals[..i + 1][..i] == meals[..i];
    }
    assert meals[..|meals|] == meals;
    var ranked := SortByCount(EntriesOf(order, ingredientCounts));
    r := Project(Take(ranked, 10), NameOf);
  }

  // ------------------------------------------------------------ analysis

  /** `daysWithRecords > 0 ? Math.round(total / daysWithRecords) : 0`. */
  function RoundedAverage(total: real, days: nat): real
  {
    if days > 0 then Round(total / days as real) as real else 0.0
  }

  /**
    The analysis the source computes, as a function of the records, the goals,
    the calendar and the ingredient ranking (`CommonIngredientsOf(records)`).
  */
  function NutritionAnalysisOf(records: seq<ImageCheckRecord>, goals: UserGoals, dayOf: Timestamp -> Key, common: seq<string>)
    : (r: NutritionAnalysis)
    ensures r.mealsCount == |records|
    ensures r.daysMetCalorieTarget <= |Days(records, dayOf)| && r.daysMetProteinTarget <= |Days(records, dayOf)|
    ensures r.daysMetCarbsTarget <= |Days(records, dayOf)| && r.daysMetFatTarget <= |Days(records, dayOf)|
    ensures records == [] ==> r == NutritionAnalysis(0.0, AverageMacros(0.0, 0.0, 0.0), common, 0, 0.0, 0, 0, 0, 0)
  {
    var totalCalories := Sum(records, Carbs);
    var totalProtein := Sum(records, Proteins);
    var totalCarbs := Sum(records, Carbs);
    var totalFat := Sum(records, Fats);
    var mealsCount := |records|;
    var daily := DailyNutrition(records, dayOf);
    var days := Days(records, dayOf);
    NutritionAnalysis(
      totalCalories,
      AverageMacros(
        RoundedAverage(totalCarbs, |days|),
        RoundedAverage(totalProtein, |days|),
        RoundedAverage(totalFat, |days|)),
      common,
      mealsCount,
      if mealsCount > 0 then totalCalories / mealsCount as real else 0.0,
      CountAtLeast(days, Column(daily, Calories), Target(goals, Calories)),
      CountAtLeast(days, Column(daily, Protein), Target(goals, Protein)),
      CountAtLeast(days, Column(daily, CarbsOf), Target(goals, CarbsOf)),
      CountAtLeast(days, Column(daily, Fat), Target(goals, Fat)))
  }

  /** `analyzeNutrition` in the meal module: the totals are folds, the per-day dictionary is built in place. */
  method AnalyzeNutrition(records: seq<ImageCheckRecord>, goals: UserGoals, dayOf: Timestamp -> Key)
    returns (r: NutritionAnalysis)
    ensures r == NutritionAnalysisOf(records, goals, dayOf, CommonIngredientsOf(records))
  {
    var totalCalories := Sum(records, Carbs);
    var totalProtein := Sum(records, Proteins);
    var totalCarbs := Sum(records, Carbs);
    var totalFat := Sum(records, Fats);
    var mealsCount := |records|;
    var averageCaloriesPerMeal := if mealsCount > 0 then totalCalories / mealsCount as real else 0.0;

    var dailyNutrition, days := BuildDailyTotals(records, DayKey(dayOf), MealFields);
    var daysWithRecords := |days|;
    var averageMacros := AverageMacros(
      RoundedAverage(totalCarbs, daysWithRecords),
      RoundedAverage(totalProtein, daysWithRecords),
      RoundedAverage(totalFat, daysWithRecords));
    var commonIngredients := ExtractCommonIngredients(records);
    r := NutritionAnalysis(
      totalCalories, averageMacros, commonIngredients, mealsCount, averageCaloriesPerMeal,
      CountAtLeast(days, Column(dailyNutrition, Calories), Target(goals, Calories)),
      CountAtLeast(days, Column(dailyNutrition, Protein), Target(goals, Protein)),
      CountAtLeast(days, Column(dailyNutrition, CarbsOf), Target(goals, CarbsOf)),
      CountAtLeast(days, Column(dailyNutrition, Fat), Target(goals, Fat)));
  }

  // ------------------------------------------------------------ properties

  /**
    The per-day sums of each nutrient add up to that nutrient's total; in
    particular the per-day calories add up to `totalCalories`, and each day's
    sum is the sum over that day's meals.
  */
  lemma DaySumsAddUp(records: seq<ImageCheckRecord>, goals: UserGoals, dayOf: Timestamp -> Key, common: seq<string>, n: Nutrient)
    ensures SumOver(Days(records, dayOf), Column(DailyNutrition(records, dayOf), n)) == Sum(records, MealFields.Of(n))
    ensures SumOver(Days(records, dayOf), Column(DailyNutrition(records, dayOf), Calories))
         == NutritionAnalysisOf(records, goals, dayOf, common).totalCalories
    ensures forall d :: d in DailyNutrition(records, dayOf) ==>
      Get(DailyNutrition(records, dayOf)[d], n) == Sum(Filter(records, DayKey(dayOf), d), MealFields.Of(n))
  {
    Daily.DaySumsAddUp(records, DayKey(dayOf), MealFields, n);
    Daily.DaySumsAddUp(records, DayKey(dayOf), MealFields, Calories);
    forall d | d in DailyNutrition(records, dayOf)
      ensures Get(DailyNutrition(records, dayOf)[d], n) == Sum(Filter(records, DayKey(dayOf), d), MealFields.Of(n))
    {
      DaySumIsSumOfDay(records, DayKey(dayOf), MealFields, n, d);
    }
  }

  /**
    As written, calories are carbohydrates: every day's calories equal its
    carbohydrates, the calorie goal is compared with carbohydrates, and the
    rounded carbohydrate average is taken from `totalCalories`.
  */
  lemma CaloriesAreCarbohydrates(records: seq<ImageCheckRecord>, goals: UserGoals, dayOf: Timestamp -> Key, common: seq<string>)
    ensures var daily := DailyNutrition(records, dayOf);
      forall d :: d in daily ==> daily[d].calories == daily[d].carbs
    ensures var a := NutritionAnalysisOf(records, goals, dayOf, common);
      && a.totalCalories == Sum(records, Carbs)
      && a.averageMacros.carbs == RoundedAverage(a.totalCalories, |Days(records, dayOf)|)
      && a.daysMetCalorieTarget == CountAtLeast(Days(records, dayOf), Column(DailyNutrition(records, dayOf), CarbsOf), goals.calories)
  {
    var daily := DailyNutrition(records, dayOf);
    ColumnIsDaySum(records, DayKey(dayOf), MealFields, Calories);
    ColumnIsDaySum(records, DayKey(dayOf), MealFields, CarbsOf);
    assert Column(daily, Calories) == Column(daily, CarbsOf);
    forall d | d in daily
      ensures daily[d].calories == daily[d].carbs
    {
      assert Column(daily, Calories)[d] == Column(daily, CarbsOf)[d];
    }
  }

  /** There is at least one day exactly when there is at least one meal. */
  lemma DaysExistIffMeals(records: seq<ImageCheckRecord>, dayOf: Timestamp -> Key)
    ensures |Days(records, dayOf)| > 0 <==> |records| > 0
  {
    if |records| > 0 {
      KeysInOrderFacts(records, DayKey(dayOf));
      assert DayKey(dayOf)(records[0]) in Days(records, dayOf);
    }
  }

  /** The per-meal average spreads the calories evenly over the meals. */
  lemma MealAverageSpreadsCalories(records: seq<ImageCheckRecord>, goals: UserGoals, dayOf: Timestamp -> Key, common: seq<string>)
    ensures var a := NutritionAnalysisOf(records, goals, dayOf, common);
      a.averageCaloriesPerMeal * |records| as real == a.totalCalories
  {
    var a := NutritionAnalysisOf(records, goals, dayOf, common);
    if |records| > 0 {
      SpreadEvenly(a.totalCalories, |records|);
    }
  }

  /** `RoundedAverage` is the whole number nearest the total per day, halves up, and 0 without days. */
  lemma RoundedAverageFacts(total: real, days: nat)
    ensures days > 0 ==>
      var avg := total / days as real;
      && avg - 0.5 < RoundedAverage(total, days) <= avg + 0.5
      && RoundedAverage(total, days) == RoundedAverage(total, days).Floor as real
    ensures days == 0 ==> RoundedAverage(total, days) == 0.0
  {
  }

  /** Each counter is the number of days whose sum of that nutrient reached its goal. */
  lemma DaysMetCounts(records: seq<ImageCheckRecord>, goals: UserGoals, dayOf: Timestamp -> Key, common: seq<string>, n: Nutrient)
    ensures var daily := DailyNutrition(records, dayOf);
      DaysMet(NutritionAnalysisOf(records, goals, dayOf, common), n)
        == |set d | d in daily && Get(daily[d], n) >= Target(goals, n)|
  {
    DaysMetIsCardinality(records, DayKey(dayOf), MealFields, n, Target(goals, n));
  }

  /**
    Given the same ingredient ranking, the analysis does not depend on the
    order in which the query returned the meals.
  */
  lemma AnalysisOrderIndependent(records: seq<ImageCheckRecord>, reordered: seq<ImageCheckRecord>, goals: UserGoals, dayOf: Timestamp -> Key, common: seq<string>)
    requires multiset(records) == multiset(reordered)
    ensures NutritionAnalysisOf(records, goals, dayOf, common) == NutritionAnalysisOf(reordered, goals, dayOf, common)
  {
    TotalsOrderIndependent(records, reordered, dayOf);
    DaysMetOrderIndependent(records, reordered, goals, dayOf, Calories);
    DaysMetOrderIndependent(records, reordered, goals, dayOf, Protein);
    DaysMetOrderIndependent(records, reordered, goals, dayOf, CarbsOf);
    DaysMetOrderIndependent(records, reordered, goals, dayOf, Fat);
  }

  lemma TotalsOrderIndependent(records: seq<ImageCheckRecord>, reordered: seq<ImageCheckRecord>, dayOf: Timestamp -> Key)
    requires multiset(records) == multiset(reordered)
    ensures Sum(records, Carbs) == Sum(reordered, Carbs)
    ensures Sum(records, Proteins) == Sum(reordered, Proteins)
    ensures Sum(records, Fats) == Sum(reordered, Fats)
    ensures |records| == |reordered| && |Days(records, dayOf)| == |Days(reordered, dayOf)|
  {
    SumPermutation(records, reordered, Carbs);
    SumPermutation(records, reordered, Proteins);
    SumPermutation(records, reordered, Fats);
    KeysPermutation(records, reordered, DayKey(dayOf));
    assert |multiset(records)| == |multiset(reordered)|;
  }

  lemma DaysMetOrderIndependent(records: seq<ImageCheckRecord>, reordered: seq<ImageCheckRecord>, goals: UserGoals, dayOf: Timestamp -> Key, n: Nutrient)
    requires multiset(records) == multiset(reordered)
    ensures CountAtLeast(Days(records, dayOf), Column(DailyNutrition(records, dayOf), n), Target(goals, n))
         == CountAtLeast(Days(reordered, dayOf), Column(DailyNutrition(reordered, dayOf), n), Target(goals, n))
  {
    DailyTotalsPermutation(records, reordered, DayKey(dayOf), MealFields, n, Target(goals, n));
  }

  /** The ingredients seen are exactly those of some meal. */
  lemma {:induction false} AllIngredientsMembership(meals: seq<ImageCheckRecord>)
    ensures forall x :: x in AllIngredients(meals) <==>
      exists i :: 0 <= i < |meals| && x in meals[i].nutritional_report.ingredient_extraction
  {
    if |meals| > 0 {
      var m' := meals[..|meals| - 1];
      AllIngredientsMembership(m');
      forall x | x in AllIngredients(m')
        ensures exists i :: 0 <= i < |meals| && x in meals[i].nutritional_report.ingredient_extraction
      {
        var i :| 0 <= i < |m'| && x in m'[i].nutritional_report.ingredient_extraction;
        assert meals[i] == m'[i];
      }
      forall x, i | 0 <= i < |meals| && x in meals[i].nutritional_report.ingredient_extraction
        ensures x in AllIngredients(meals)
      {
        if i < |meals| - 1 {
          assert meals[i] == m'[i];
        }
      }
    }
  }

  /**
    The common ingredients: at most ten, all different, each taken from some
    meal, by non-increasing number of occurrences; an ingredient left out
    occurs no more often than any that was kept, and fewer than ten means none
    was left out.
  */
  lemma CommonIngredientsFacts(meals: seq<ImageCheckRecord>)
    ensures var r, all := CommonIngredientsOf(meals), AllIngredients(meals);
      && |r| <= 10
      && (forall i, j :: 0 <= i < j < |r| ==> r[i] != r[j])
      && (forall i :: 0 <= i < |r| ==>
            exists m :: 0 <= m < |meals| && r[i] in meals[m].nutritional_report.ingredient_extraction)
      && (forall i, j :: 0 <= i < j < |r| ==> multiset(all)[r[i]] >= multiset(all)[r[j]])
      && (forall x, i :: x in all && x !in r && 0 <= i < |r| ==> multiset(all)[r[i]] >= multiset(all)[x])
      && (|r| < 10 ==> forall x :: x in all ==> x in r)
  {
    var r, all := CommonIngredientsOf(meals), AllIngredients(meals);
    MostFrequentShape(all, 10);
    MostFrequentDominates(all, 10);
    MostFrequentComplete(all, 10);
    AllIngredientsMembership(meals);
    forall i | 0 <= i < |r|
      ensures exists m :: 0 <= m < |meals| && r[i] in meals[m].nutritional_report.ingredient_extraction
    {
      assert r[i] in all;
    }
  }

  /** The different ingredients the meals list. */
  function IngredientSet(meals: seq<ImageCheckRecord>): set<string>
  {
    set x | x in AllIngredients(meals)
  }

  /** With at most ten different ingredients, every one of them is common. */
  lemma CommonIsAll(meals: seq<ImageCheckRecord>)
    requires |IngredientSet(meals)| <= 10
    ensures (set x | x in CommonIngredientsOf(meals)) == IngredientSet(meals)
  {
    var r, all := CommonIngredientsOf(meals), AllIngredients(meals);
    MostFrequentShape(all, 10);
    MostFrequentComplete(all, 10);
    var kept := set x | x in r;
    assert kept <= IngredientSet(meals);
    if |r| == 10 {
      DistinctCardinality(r);
      var missing := IngredientSet(meals) - kept;
      assert |missing| == |IngredientSet(meals)| - |kept|;
      assert missing == {};
    }
  }

  /**
    The ranking breaks ties by first appearance, so the order of the common
    ingredients depends on the order of the meals; with at most ten different
    ingredients, which ingredients are common does not.
  */
  lemma CommonIngredientsOrderIndependent(records: seq<ImageCheckRecord>, reordered: seq<ImageCheckRecord>)
    requires multiset(records) == multiset(reordered)
    requires |IngredientSet(records)| <= 10
    ensures (set x | x in CommonIngredientsOf(records)) == (set x | x in CommonIngredientsOf(reordered))
  {
    AllIngredientsMembership(records);
    AllIngredientsMembership(reordered);
    forall x | x in AllIngredients(records)
      ensures x in AllIngredients(reordered)
    {
      var i :| 0 <= i < |records| && x in records[i].nutritional_report.ingredient_extraction;
      assert records[i] in multiset(reordered);
      var j :| 0 <= j < |reordered| && reordered[j] == records[i];
    }
    forall x | x in AllIngredients(reordered)
      ensures x in AllIngredients(records)
    {
      var j :| 0 <= j < |reordered| && x in reordered[j].nutritional_report.ingredient_extraction;
      assert reordered[j] in multiset(records);
      var i :| 0 <= i < |records| && records[i] == reordered[j];
    }
    assert IngredientSet(records) == IngredientSet(reordered);
    CommonIsAll(records);
    CommonIsAll(reordered);
  }

  /** Two meals listing one ingredient each, in either order: the common ingredients come out in meal order. */
  lemma CommonIngredientsTieOrder(x: ImageCheckRecord, y: ImageCheckRecord)
    requires x.nutritional_report.ingredient_extraction == ["x"]
    requires y.nutritional_report.ingredient_extraction == ["y"]
    ensures CommonIngredientsOf([x, y]) == ["x", "y"]
    ensures CommonIngredientsOf([y, x]) == ["y", "x"]
  {
    assert [x, y][..1] == [x] && [y, x][..1] == [y] && [x][..0] == [] && [y][..0] == [];
    assert AllIngredients([x]) == ["x"] && AllIngredients([y]) == ["y"];
    assert AllIngredients([x, y]) == ["x", "y"] && AllIngredients([y, x]) == ["y", "x"];
    TieKeepsFirstSeen("x", "y");
    TieKeepsFirstSeen("y", "x");
  }

  /** Two ingredients seen once each are ranked in the order they were first seen. */
  lemma TieKeepsFirstSeen(a: Key, b: Key)
    requires a != b
    ensures MostFrequent([a, b], 10) == [a, b]
  {
    var s := [a, b];
    assert s[..1] == [a] && [a][..0] == [];
    assert KeysInOrder([a], Ident) == [a];
    assert KeysInOrder(s, Ident) == [a, b];
    assert GroupCount([a], Ident) == map[a := 1];
    assert GroupCount(s, Ident) == map[a := 1, b := 1];
    var es := EntriesOf([a, b], map[a := 1, b := 1]);
    assert es == [Entry(a, 1), Entry(b, 1)];
    assert es[..1] == [Entry(a, 1)] && es[..1][..0] == [];
    assert SortByCount(es[..1]) == [Entry(a, 1)];
    assert Insert([Entry(a, 1)], Entry(b, 1)) == [Entry(a, 1), Entry(b, 1)];
    assert SortByCount(es) == [Entry(a, 1), Entry(b, 1)];
  }

  // ----------------------------------------------------------------- query

  /** `fetchMealRecords`: the user's processed records created inside the inclusive window, in collection order. */
  function FetchMealRecords(collection: seq<ImageCheckRecord>, userId: string, start: Timestamp, end: Timestamp)
    : (r: seq<ImageCheckRecord>)
    ensures forall x :: x in r <==>
      x in collection && x.userID == userId && InWindow(x.created_at, start, end) && x.status == Processed.Name()
    ensures forall x :: multiset(r)[x] == (if x.userID == userId && InWindow(x.created_at, start, end) && x.status == Processed.Name()
      then multiset(collection)[x] else 0)
  {
    Select(collection, (x: ImageCheckRecord) =>
      x.userID == userId && InWindow(x.created_at, start, end) && x.status == Processed.Name())
  }
}
