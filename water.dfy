/**
  The weekly water analysis: the total intake, the intake per calendar day,
  the average over the days that have records, and the number of days whose
  intake reached the user's water goal.
*/
module Water {
  import opened Wrappers
  import opened Folds
  import opened Types

  datatype WaterIntakeRecord = WaterIntakeRecord(
    id: string,
    amount: real,
    notes: Option<string>,
    created_at: Timestamp,
    userID: string)

  function Amount(r: WaterIntakeRecord): real
  {
    r.amount
  }

  /** The day a record belongs to, given the calendar-day function that stands for `toLocaleDateString`. */
  function DayKey(dayOf: Timestamp -> Key): WaterIntakeRecord -> Key
  {
    (r: WaterIntakeRecord) => dayOf(r.created_at)
  }

  /** The day keys of the `dailyIntakes` dictionary, in insertion order. */
  function Days(records: seq<WaterIntakeRecord>, dayOf: Timestamp -> Key): seq<Key>
  {
    KeysInOrder(records, DayKey(dayOf))
  }

  /** The `dailyIntakes` dictionary: each day's summed amount. */
  function DailyIntakes(records: seq<WaterIntakeRecord>, dayOf: Timestamp -> Key): map<Key, real>
  {
    GroupSum(records, DayKey(dayOf), Amount)
  }

  /** The analysis the source computes, as a function of the records, the goals and the calendar. */
  function WaterAnalysisOf(records: seq<WaterIntakeRecord>, goals: UserGoals, dayOf: Timestamp -> Key)
    : (r: WaterAnalysis)
    ensures records == [] ==> r == WaterAnalysis(0.0, 0.0, 0)
    ensures r.daysMetTarget <= |Days(records, dayOf)|
  {
    var total := Sum(records, Amount);
    var days := Days(records, dayOf);
    WaterAnalysis(
      total,
      if |days| > 0 then total / |days| as real else 0.0,
      CountAtLeast(days, DailyIntakes(records, dayOf), goals.water))
  }

  /**
    `analyzeWaterIntake`: the total is a fold; the per-day dictionary is filled
    in place, one record at a time, with `acc[day] = (acc[day] || 0) + amount`.
  */
  method AnalyzeWaterIntake(records: seq<WaterIntakeRecord>, goals: UserGoals, dayOf: Timestamp -> Key)
    returns (r: WaterAnalysis)
    ensures r == WaterAnalysisOf(records, goals, dayOf)
  {
    var totalIntake := Sum(records, Amount);
    var dailyIntakes: map<Key, real> := map[];
    var days: seq<Key> := [];
    for i := 0 to |records|
      invariant days == Days(records[..i], dayOf)
      invariant dailyIntakes == DailyIntakes(records[..i], dayOf)
    {
      var day := dayOf(records[i].created_at);
      dailyIntakes := dailyIntakes[day := ValueOr(dailyIntakes, day) + records[i].amount];
      if day !in days {
        days := days + [day];
      }
      assert records[..i + 1][..i] == records[..i];
    }
    assert records[..|records|] == records;
    var daysWithRecords := |days|;
    var dailyAverage := if daysWithRecords > 0 then totalIntake / daysWithRecords as real else 0.0;
    r := WaterAnalysis(totalIntake, dailyAverage, CountAtLeast(days, dailyIntakes, goals.water));
  }

  // ------------------------------------------------------------ properties

  /** The day sums add up to the total intake, and there are never more days than records. */
  lemma DailyIntakesAddUp(records: seq<WaterIntakeRecord>, goals: UserGoals, dayOf: Timestamp -> Key)
    ensures SumOver(Days(records, dayOf), DailyIntakes(records, dayOf)) == WaterAnalysisOf(records, goals, dayOf).totalIntake
    ensures |Days(records, dayOf)| <= |records|
    ensures forall d :: d in DailyIntakes(records, dayOf) <==> d in Days(records, dayOf)
  {
    GroupSumsAddUp(records, DayKey(dayOf), Amount);
    KeysInOrderFacts(records, DayKey(dayOf));
    GroupSumKeys(records, DayKey(dayOf), Amount);
  }

  /** A day's intake is the sum of the amounts recorded on that day. */
  lemma DayIntakeIsSumOfDay(records: seq<WaterIntakeRecord>, dayOf: Timestamp -> Key, d: Key)
    requires d in DailyIntakes(records, dayOf)
    ensures DailyIntakes(records, dayOf)[d] == Sum(Filter(records, DayKey(dayOf), d), Amount)
  {
    GroupSumIsFilterSum(records, DayKey(dayOf), Amount);
  }

  /** There is at least one day exactly when there is at least one record. */
  lemma DaysExistIffRecords(records: seq<WaterIntakeRecord>, dayOf: Timestamp -> Key)
    ensures |Days(records, dayOf)| > 0 <==> |records| > 0
  {
    if |records| > 0 {
      KeysInOrderFacts(records, DayKey(dayOf));
      assert DayKey(dayOf)(records[0]) in Days(records, dayOf);
    }
  }

  /** The average is the total spread evenly over the days that have records. */
  lemma DailyAverageSpreadsTotal(records: seq<WaterIntakeRecord>, goals: UserGoals, dayOf: Timestamp -> Key)
    ensures var a := WaterAnalysisOf(records, goals, dayOf);
      a.dailyAverage * |Days(records, dayOf)| as real == a.totalIntake
  {
    DaysExistIffRecords(records, dayOf);
  }

  /** `daysMetTarget` is the number of distinct days whose intake reached the goal, so at most the number of days. */
  lemma DaysMetTargetCounts(records: seq<WaterIntakeRecord>, goals: UserGoals, dayOf: Timestamp -> Key)
    ensures var days, daily := Days(records, dayOf), DailyIntakes(records, dayOf);
      WaterAnalysisOf(records, goals, dayOf).daysMetTarget
        == |set d | d in daily && daily[d] >= goals.water|
  {
    var days, daily := Days(records, dayOf), DailyIntakes(records, dayOf);
    KeysInOrderFacts(records, DayKey(dayOf));
    GroupSumKeys(records, DayKey(dayOf), Amount);
    CountAtLeastIsCardinality(days, daily, goals.water);
    assert Reaching(days, daily, goals.water) == (set d | d in daily && daily[d] >= goals.water);
  }

  /** Lowering the water goal never lowers the number of days that met it. */
  lemma LowerGoalMeetsMoreDays(records: seq<WaterIntakeRecord>, lower: UserGoals, higher: UserGoals, dayOf: Timestamp -> Key)
    requires lower.water <= higher.water
    ensures WaterAnalysisOf(records, higher, dayOf).daysMetTarget <= WaterAnalysisOf(records, lower, dayOf).daysMetTarget
  {
    GroupSumKeys(records, DayKey(dayOf), Amount);
    CountAtLeastAntitone(Days(records, dayOf), DailyIntakes(records, dayOf), lower.water, higher.water);
  }

  /** The analysis does not depend on the order in which the query returned the records. */
  lemma AnalysisOrderIndependent(records: seq<WaterIntakeRecord>, reordered: seq<WaterIntakeRecord>, goals: UserGoals, dayOf: Timestamp -> Key)
    requires multiset(records) == multiset(reordered)
    ensures WaterAnalysisOf(records, goals, dayOf) == WaterAnalysisOf(reordered, goals, dayOf)
  {
    var key := DayKey(dayOf);
    SumPermutation(records, reordered, Amount);
    KeysPermutation(records, reordered, key);
    GroupSumPermutation(records, reordered, key, Amount);
    KeysInOrderFacts(records, key);
    KeysInOrderFacts(reordered, key);
    GroupSumKeys(records, key, Amount);
    CountAtLeastPermutation(Days(records, dayOf), Days(reordered, dayOf), DailyIntakes(records, dayOf), goals.water);
  }

  // ----------------------------------------------------------------- query

  /** `fetchWaterRecords`: the user's records created inside the inclusive window, in collection order. */
  function FetchWaterRecords(collection: seq<WaterIntakeRecord>, userId: string, start: Timestamp, end: Timestamp)
    : (r: seq<WaterIntakeRecord>)
    ensures forall x :: x in r <==> x in collection && x.userID == userId && InWindow(x.created_at, start, end)
    ensures forall x :: multiset(r)[x] == if x.userID == userId && InWindow(x.created_at, start, end) then multiset(collection)[x] else 0
  {
    Select(collection, (x: WaterIntakeRecord) => x.userID == userId && InWindow(x.created_at, start, end))
  }
}
