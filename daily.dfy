/**
  The `dailyNutrition` dictionary both nutrition analysers build: one entry
  per calendar day holding that day's summed calories, protein, carbohydrates
  and fat, filled in place by four `+=` per record. The two analysers differ
  only in which record field feeds each of the four sums, so the fields are a
  parameter (`Fields`).
*/
module Daily {
  import opened Folds
  import opened Types

  /** One day's entry: `{ calories, protein, carbs, fat }`. */
  datatype DayTotals = DayTotals(calories: real, protein: real, carbs: real, fat: real)

  const Zero := DayTotals(0.0, 0.0, 0.0, 0.0)

  /** The four sums of a day's entry. */
  datatype Nutrient = Calories | Protein | CarbsOf | Fat

  function Get(t: DayTotals, n: Nutrient): real
  {
    match n
    case Calories => t.calories
    case Protein => t.protein
    case CarbsOf => t.carbs
    case Fat => t.fat
  }

  /** The record field added into each of the four sums. */
  datatype Fields<!T> = Fields(calories: T -> real, protein: T -> real, carbs: T -> real, fat: T -> real)
  {
    function Of(n: Nutrient): T -> real
    {
      match n
      case Calories => calories
      case Protein => protein
      case CarbsOf => carbs
      case Fat => fat
    }
  }

  /** The goal each `daysMet*Target` counter compares a day's sum with. */
  function Target(goals: UserGoals, n: Nutrient): real
  {
    match n
    case Calories => goals.calories
    case Protein => goals.macros.proteins
    case CarbsOf => goals.macros.carbs
    case Fat => goals.macros.fats
  }

  /** The `daysMet*Target` counter of a nutrient. */
  function DaysMet(a: NutritionAnalysis, n: Nutrient): nat
  {
    match n
    case Calories => a.daysMetCalorieTarget
    case Protein => a.daysMetProteinTarget
    case CarbsOf => a.daysMetCarbsTarget
    case Fat => a.daysMetFatTarget
  }

  /** The four `+=` of one record on its day's entry. */
  function AddRecord<T>(t: DayTotals, fs: Fields<T>, r: T): DayTotals
  {
    DayTotals(t.calories + fs.calories(r), t.protein + fs.protein(r), t.carbs + fs.carbs(r), t.fat + fs.fat(r))
  }

  /** The dictionary the `reduce` builds: a zero entry on a day's first record, then `AddRecord`. */
  function DailyTotals<T>(s: seq<T>, key: T -> Key, fs: Fields<T>): map<Key, DayTotals>
  {
    if |s| == 0 then map[]
    else
      var acc := DailyTotals(s[..|s| - 1], key, fs);
      var r := s[|s| - 1];
      var t := if key(r) in acc then acc[key(r)] else Zero;
      acc[key(r) := AddRecord(t, fs, r)]
  }

  /** One nutrient of every day: `Object.values(dailyNutrition)` read through one field. */
  function Column(daily: map<Key, DayTotals>, n: Nutrient): map<Key, real>
  {
    map d | d in daily :: Get(daily[d], n)
  }

  /**
    The `reduce` that fills `dailyNutrition` in place: a zero entry on a day's
    first record, then the record's four values added to that day's entry
    field by field; `days` is the dictionary's key order.
  */
  method BuildDailyTotals<T>(records: seq<T>, key: T -> Key, fs: Fields<T>)
    returns (daily: map<Key, DayTotals>, days: seq<Key>)
    ensures daily == DailyTotals(records, key, fs)
    ensures days == KeysInOrder(records, key)
  {
    daily, days := map[], [];
    for i := 0 to |records|
      invariant daily == DailyTotals(records[..i], key, fs)
      invariant days == KeysInOrder(records[..i], key)
      invariant forall d :: d in daily <==> d in days
    {
      var record := records[i];
      var day := key(record);
      if day !in daily {
        daily := daily[day := Zero];
        days := days + [day];
      }
      var t := daily[day];
      t := t.(calories := t.calories + fs.calories(record));
      t := t.(protein := t.protein + fs.protein(record));
      t := t.(carbs := t.carbs + fs.carbs(record));
      t := t.(fat := t.fat + fs.fat(record));
      daily := daily[day := t];
      assert records[..i + 1][..i] == records[..i];
    }
    assert records[..|records|] == records;
  }

  // ------------------------------------------------------------ properties

  /** The dictionary has exactly the records' days as keys. */
  lemma {:induction false} DailyTotalsKeys<T>(s: seq<T>, key: T -> Key, fs: Fields<T>)
    ensures forall d :: d in DailyTotals(s, key, fs) <==> d in KeysInOrder(s, key)
  {
    if |s| > 0 {
      DailyTotalsKeys(s[..|s| - 1], key, fs);
    }
  }

  lemma ColumnUpdate(daily: map<Key, DayTotals>, day: Key, t: DayTotals, n: Nutrient)
    ensures Column(daily[day := t], n) == Column(daily, n)[day := Get(t, n)]
  {
  }

  /** Each column holds, for every day, the sum of its field over that day's records. */
  lemma {:induction false} ColumnIsDaySum<T>(s: seq<T>, key: T -> Key, fs: Fields<T>, n: Nutrient)
    ensures Column(DailyTotals(s, key, fs), n) == GroupSum(s, key, fs.Of(n))
  {
    if |s| > 0 {
      var s', r := s[..|s| - 1], s[|s| - 1];
      ColumnIsDaySum(s', key, fs, n);
      var acc := DailyTotals(s', key, fs);
      var t := if key(r) in acc then acc[key(r)] else Zero;
      var m' := GroupSum(s', key, fs.Of(n));
      assert Get(t, n) == ValueOr(m', key(r));
      assert Get(AddRecord(t, fs, r), n) == Get(t, n) + fs.Of(n)(r);
      ColumnUpdate(acc, key(r), AddRecord(t, fs, r), n);
    }
  }

  /** The per-day sums of a nutrient add up to that nutrient's total over all records. */
  lemma DaySumsAddUp<T>(s: seq<T>, key: T -> Key, fs: Fields<T>, n: Nutrient)
    ensures SumOver(KeysInOrder(s, key), Column(DailyTotals(s, key, fs), n)) == Sum(s, fs.Of(n))
  {
    ColumnIsDaySum(s, key, fs, n);
    GroupSumsAddUp(s, key, fs.Of(n));
  }

  /** A day's sum of a nutrient is the sum of that field over the records of that day. */
  lemma DaySumIsSumOfDay<T>(s: seq<T>, key: T -> Key, fs: Fields<T>, n: Nutrient, d: Key)
    requires d in DailyTotals(s, key, fs)
    ensures Get(DailyTotals(s, key, fs)[d], n) == Sum(Filter(s, key, d), fs.Of(n))
  {
    ColumnIsDaySum(s, key, fs, n);
    GroupSumIsFilterSum(s, key, fs.Of(n));
    assert Column(DailyTotals(s, key, fs), n)[d] == Get(DailyTotals(s, key, fs)[d], n);
  }

  /**
    `Object.values(dailyNutrition).filter(day => day.<n> >= goal).length` is
    the number of distinct days whose sum of the nutrient reached the goal, and
    so at most the number of days.
  */
  lemma DaysMetIsCardinality<T>(s: seq<T>, key: T -> Key, fs: Fields<T>, n: Nutrient, goal: real)
    ensures var daily := DailyTotals(s, key, fs);
      CountAtLeast(KeysInOrder(s, key), Column(daily, n), goal)
        == |set d | d in daily && Get(daily[d], n) >= goal|
  {
    var daily, days := DailyTotals(s, key, fs), KeysInOrder(s, key);
    KeysInOrderDistinct(s, key);
    DailyTotalsKeys(s, key, fs);
    CountAtLeastIsCardinality(days, Column(daily, n), goal);
    assert Reaching(days, Column(daily, n), goal) == (set d | d in daily && Get(daily[d], n) >= goal);
  }

  /** Reordering the records changes neither the dictionary nor how many days reach a goal. */
  lemma DailyTotalsPermutation<T>(s: seq<T>, t: seq<T>, key: T -> Key, fs: Fields<T>, n: Nutrient, goal: real)
    requires multiset(s) == multiset(t)
    ensures Column(DailyTotals(s, key, fs), n) == Column(DailyTotals(t, key, fs), n)
    ensures CountAtLeast(KeysInOrder(s, key), Column(DailyTotals(s, key, fs), n), goal)
         == CountAtLeast(KeysInOrder(t, key), Column(DailyTotals(t, key, fs), n), goal)
  {
    ColumnIsDaySum(s, key, fs, n);
    ColumnIsDaySum(t, key, fs, n);
    GroupSumPermutation(s, t, key, fs.Of(n));
    KeysPermutation(s, t, key);
    KeysInOrderDistinct(s, key);
    KeysInOrderDistinct(t, key);
    CountAtLeastPermutation(KeysInOrder(s, key), KeysInOrder(t, key), Column(DailyTotals(s, key, fs), n), goal);
  }
}
