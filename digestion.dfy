/**
  The weekly digestion analysis: the number of records, how often each
  Bristol-scale value was recorded, the average score of each calendar day,
  and one concern for every day whose average lies outside the user's ideal
  range `[bristol_score - 1, bristol_score + 1]`.

  A day's scores are `Number(bristol_scale)` of its records; a value that is
  not a number (`NaN`) makes the day's sum and average `NaN`, and a `NaN`
  average is neither below nor above the range, so it raises no concern.

  A record whose analysis has no `bristol_scale` (one created by an upload and
  not yet analysed, or whose analysis failed) makes the distribution's
  `bristol_scale.toString()` throw, so the whole analysis throws.
*/
module Digestion {
  import opened Wrappers
  import opened Folds
  import opened Numbers
  import opened Types

  datatype DigestionSource = Manual | AI
  {
    function Name(): string
    {
      match this
      case Manual => "manual"
      case AI => "ai"
    }
  }

  /** The main analysis data of a record; `bristol_scale` is `None` when the field is missing. */
  datatype DigestionAnalysis = DigestionAnalysis(
    bristol_scale: Option<string>,
    color: string,
    consistency: string,
    shape: string,
    size: string,
    has_blood: bool,
    has_mucus: bool,
    source: DigestionSource)

  /** A digestion record; `status` is the stored string. */
  datatype DigestionRecord = DigestionRecord(
    id: string,
    userID: string,
    created_at: Timestamp,
    imageType: ImageCheckType,
    status: string,
    filename: Option<string>,
    notes: Option<string>,
    analysis: DigestionAnalysis,
    ai_recommendations: Option<seq<string>>,
    ai_concerns: Option<seq<string>>)

  /** What `undefined.toString()` throws. */
  const ScaleMissingError: string := "TypeError: Cannot read properties of undefined (reading 'toString')"

  /** The record carries a `bristol_scale`. */
  predicate Scaled(r: DigestionRecord)
  {
    r.analysis.bristol_scale.Some?
  }

  /** Every record carries a `bristol_scale`, so the distribution loop does not throw. */
  predicate AllScaled(records: seq<DigestionRecord>)
  {
    forall i :: 0 <= i < |records| ==> Scaled(records[i])
  }

  /**
    The distribution key of a record: `bristol_scale.toString()`, the string
    itself; it is only read when every record is scaled.
  */
  function ScaleKey(r: DigestionRecord): Key
  {
    match r.analysis.bristol_scale
    case Some(scale) => scale
    case None => ""
  }

  /** `Number(bristol_scale)`; `None` is `NaN`, which is also `Number(undefined)`. */
  function Score(r: DigestionRecord): Option<real>
  {
    match r.analysis.bristol_scale
    case Some(scale) => NumberOf(scale)
    case None => None
  }

  function DayKey(dayOf: Timestamp -> Key): DigestionRecord -> Key
  {
    (r: DigestionRecord) => dayOf(r.created_at)
  }

  function Days(records: seq<DigestionRecord>, dayOf: Timestamp -> Key): seq<Key>
  {
    KeysInOrder(records, DayKey(dayOf))
  }

  /** `bristolScaleDistribution`: how many records carry each scale value. */
  function Distribution(records: seq<DigestionRecord>): map<Key, nat>
  {
    GroupCount(records, ScaleKey)
  }

  /** `dailyScores`: each day's scores, in record order. */
  function DailyScores(records: seq<DigestionRecord>, dayOf: Timestamp -> Key): map<Key, seq<Option<real>>>
  {
    GroupList(records, DayKey(dayOf), Score)
  }

  // ------------------------------------------------------------ averages

  /** `sum + score`, where `NaN` on either side gives `NaN`. */
  function AddScore(sum: Option<real>, score: Option<real>): Option<real>
  {
    if sum.Some? && score.Some? then Some(sum.value + score.value) else None
  }

  /** `scores.reduce((sum, score) => sum + score, 0)`: a number exactly when every score is one. */
  function ScoreSum(scores: seq<Option<real>>): (r: Option<real>)
    ensures r.Some? <==> forall i :: 0 <= i < |scores| ==> scores[i].Some?
  {
    if |scores| == 0 then Some(0.0)
    else AddScore(ScoreSum(scores[..|scores| - 1]), scores[|scores| - 1])
  }

  /** The sum divided by the number of scores; `0 / 0` is `NaN`. */
  function Mean(scores: seq<Option<real>>): Option<real>
  {
    if |scores| == 0 then None
    else
      match ScoreSum(scores)
      case Some(total) => Some(total / |scores| as real)
      case None => None
  }

  /** The scores of a day, or none for a day that is not in the dictionary. */
  function ScoresOf(daily: map<Key, seq<Option<real>>>, day: Key): seq<Option<real>>
  {
    if day in daily then daily[day] else []
  }

  /** `averageScoresByDay`, filled by walking the entries of `dailyScores` in key order. */
  function Averages(days: seq<Key>, daily: map<Key, seq<Option<real>>>): map<Key, Option<real>>
  {
    if |days| == 0 then map[]
    else Averages(days[..|days| - 1], daily)[days[|days| - 1] := Mean(ScoresOf(daily, days[|days| - 1]))]
  }

  /** A day's average, or `None` (`undefined`) for a day that is not in the dictionary. */
  function AverageOf(averages: map<Key, Option<real>>, day: Key): Option<real>
  {
    if day in averages then averages[day] else None
  }

  // ------------------------------------------------------------ concerns

  /**
    The concern a day's average raises: "Low" below `goal - 1`, "High" above
    `goal + 1`, none inside the range and none for `NaN`.
  */
  function ConcernOf(day: Key, avg: Option<real>, goal: real): (r: Option<Concern>)
    ensures r.Some? ==> r.value.day == day && avg == Some(r.value.average)
    ensures (r.Some? && r.value.level == Low) <==> (avg.Some? && avg.value < goal - 1.0)
    ensures (r.Some? && r.value.level == High) <==> (avg.Some? && !(avg.value < goal - 1.0) && avg.value > goal + 1.0)
  {
    match avg
    case None => None
    case Some(a) =>
      if a < goal - 1.0 then Some(Concern(Low, day, a))
      else if a > goal + 1.0 then Some(Concern(High, day, a))
      else None
  }

  /** The `concerns` array, one `push` per day that raises a concern, in day order. */
  function Concerns(days: seq<Key>, averages: map<Key, Option<real>>, goal: real): seq<Concern>
  {
    if |days| == 0 then []
    else
      var last := days[|days| - 1];
      Concerns(days[..|days| - 1], averages, goal)
        + match ConcernOf(last, AverageOf(averages, last), goal)
          case Some(c) => [c]
          case None => []
  }

  /** The summary of records that all carry a `bristol_scale`. */
  function ScaledSummary(records: seq<DigestionRecord>, goals: UserGoals, dayOf: Timestamp -> Key)
    : (r: DigestionSummary)
    ensures r.frequency == |records|
    ensures r.commonCharacteristics == CommonCharacteristics([], [])
    ensures records == [] ==> r.bristolScaleDistribution == map[] && r.concerns == []
  {
    var days := Days(records, dayOf);
    var averages := Averages(days, DailyScores(records, dayOf));
    DigestionSummary(
      |records|,
      Distribution(records),
      CommonCharacteristics([], []),
      Concerns(days, averages, goals.bristol_score))
  }

  /**
    What `analyzeDigestion` resolves to or rejects with: the summary when every
    record carries a `bristol_scale`, the `TypeError` otherwise.
  */
  function DigestionSummaryOf(records: seq<DigestionRecord>, goals: UserGoals, dayOf: Timestamp -> Key)
    : (r: Result<DigestionSummary, string>)
    ensures r.Success? <==> AllScaled(records)
    ensures r.Failure? ==> r.error == ScaleMissingError
    ensures r.Success? ==> r.value.frequency == |records| && r.value.bristolScaleDistribution == Distribution(records)
  {
    if AllScaled(records) then Success(ScaledSummary(records, goals, dayOf)) else Failure(ScaleMissingError)
  }

  // ------------------------------------------------------------- methods

  /**
    The `reduce` that fills `bristolScaleDistribution` in place with
    `acc[score] = (acc[score] || 0) + 1`; it throws at the first record without
    a `bristol_scale`.
  */
  method CountScales(records: seq<DigestionRecord>) returns (distribution: Result<map<Key, nat>, string>)
    ensures distribution.Success? <==> AllScaled(records)
    ensures distribution.Success? ==> distribution.value == Distribution(records)
    ensures distribution.Failure? ==> distribution.error == ScaleMissingError
  {
    var counts := map[];
    for i := 0 to |records|
      invariant AllScaled(records[..i])
      invariant counts == Distribution(records[..i])
    {
      if records[i].analysis.bristol_scale.None? {
        return Failure(ScaleMissingError);
      }
      var score := records[i].analysis.bristol_scale.value;
      counts := counts[score := (if score in counts then counts[score] else 0) + 1];
      assert records[..i + 1][..i] == records[..i];
    }
    assert records[..|records|] == records;
    distribution := Success(counts);
  }

  /** The `reduce` that fills `dailyScores` in place: an empty list on a day's first record, then a `push`. */
  method GroupScoresByDay(records: seq<DigestionRecord>, dayOf: Timestamp -> Key)
    returns (dailyScores: map<Key, seq<Option<real>>>, days: seq<Key>)
    ensures dailyScores == DailyScores(records, dayOf)
    ensures days == Days(records, dayOf)
  {
    dailyScores, days := map[], [];
    for i := 0 to |records|
      invariant dailyScores == DailyScores(records[..i], dayOf)
      invariant days == Days(records[..i], dayOf)
      invariant forall d :: d in dailyScores <==> d in days
    {
      var record := records[i];
      var day := dayOf(record.created_at);
      if day !in dailyScores {
        dailyScores := dailyScores[day := []];
        days := days + [day];
      }
      dailyScores := dailyScores[day := dailyScores[day] + [Score(record)]];
      assert records[..i + 1][..i] == records[..i];
    }
    assert records[..|records|] == records;
  }

  /** `scores.reduce((sum, score) => sum + score, 0) / scores.length`. */
  method MeanScore(scores: seq<Option<real>>) returns (avg: Option<real>)
    ensures avg == Mean(scores)
  {
    var sum: Option<real> := Some(0.0);
    for j := 0 to |scores|
      invariant sum == ScoreSum(scores[..j])
    {
      sum := AddScore(sum, scores[j]);
      assert scores[..j + 1][..j] == scores[..j];
    }
    assert scores[..|scores|] == scores;
    if |scores| == 0 {
      avg := None;
    } else if sum.Some? {
      avg := Some(sum.value / |scores| as real);
    } else {
      avg := None;
    }
  }

  /** The `reduce` over `Object.entries(dailyScores)` that fills `averageScoresByDay` in place. */
  method AverageByDay(days: seq<Key>, dailyScores: map<Key, seq<Option<real>>>)
    returns (averages: map<Key, Option<real>>)
    ensures averages == Averages(days, dailyScores)
  {
    averages := map[];
    for i := 0 to |days|
      invariant averages == Averages(days[..i], dailyScores)
    {
      var day := days[i];
      var avg := MeanScore(ScoresOf(dailyScores, day));
      averages := averages[day := avg];
      assert days[..i + 1][..i] == days[..i];
    }
    assert days[..|days|] == days;
  }

  /** The `forEach` over `Object.entries(averageScoresByDay)` that pushes the concerns. */
  method CollectConcerns(days: seq<Key>, averages: map<Key, Option<real>>, goal: real)
    returns (concerns: seq<Concern>)
    ensures concerns == Concerns(days, averages, goal)
  {
    concerns := [];
    var min, max := goal - 1.0, goal + 1.0;
    for i := 0 to |days|
      invariant concerns == Concerns(days[..i], averages, goal)
    {
      var day := days[i];
      var score := AverageOf(averages, day);
      if score.Some? && score.value < min {
        concerns := concerns + [Concern(Low, day, score.value)];
      } else if score.Some? && score.value > max {
        concerns := concerns + [Concern(High, day, score.value)];
      }
      assert days[..i + 1][..i] == days[..i];
    }
    assert days[..|days|] == days;
  }

  /**
    `analyzeDigestion`: each dictionary and the concerns array are filled in
    place, one loop each; a throw in the first loop rejects the call.
  */
  method AnalyzeDigestion(records: seq<DigestionRecord>, goals: UserGoals, dayOf: Timestamp -> Key)
    returns (r: Result<DigestionSummary, string>)
    ensures r == DigestionSummaryOf(records, goals, dayOf)
  {
    var frequency := |records|;
    var bristolScaleDistribution := CountScales(records);
    if bristolScaleDistribution.Failure? {
      return Failure(bristolScaleDistribution.error);
    }
    var dailyScores, days := GroupScoresByDay(records, dayOf);
    var averageScoresByDay := AverageByDay(days, dailyScores);
    var concerns := CollectConcerns(days, averageScoresByDay, goals.bristol_score);
    r := Success(DigestionSummary(frequency, bristolScaleDistribution.value, CommonCharacteristics([], []), concerns));
  }

  /** One record without a `bristol_scale` anywhere in the week makes the analysis throw. */
  lemma UnscaledRecordThrows(records: seq<DigestionRecord>, goals: UserGoals, dayOf: Timestamp -> Key, i: nat)
    requires i < |records| && records[i].analysis.bristol_scale.None?
    ensures DigestionSummaryOf(records, goals, dayOf) == Failure(ScaleMissingError)
  {
    assert !Scaled(records[i]);
  }

  // ------------------------------------------------------------ properties

  /**
    The distribution's counts add up to the number of records; its keys are
    exactly the scale values recorded, each counted as often as it occurs.
  */
  lemma DistributionAddsUp(records: seq<DigestionRecord>)
    requires AllScaled(records)
    ensures SumCounts(KeysInOrder(records, ScaleKey), Distribution(records)) == |records|
    ensures forall k :: k in Distribution(records) <==> exists i :: 0 <= i < |records| && records[i].analysis.bristol_scale == Some(k)
    ensures forall k :: k in Distribution(records) ==> Distribution(records)[k] == |Filter(records, ScaleKey, k)|
  {
    GroupCountsAddUp(records, ScaleKey);
    GroupCountKeys(records, ScaleKey);
    KeysInOrderFacts(records, ScaleKey);
    GroupCountIsFilterSize(records, ScaleKey);
  }

  /** A record's numeric score, 0 for `NaN`. */
  function ScoreValue(r: DigestionRecord): real
  {
    if Score(r).Some? then Score(r).value else 0.0
  }

  /** Every record's `bristol_scale` is a number. */
  predicate AllScored(s: seq<DigestionRecord>)
  {
    forall i :: 0 <= i < |s| ==> Score(s[i]).Some?
  }

  /** When every score is a number, their sum is the plain sum of the scores. */
  lemma {:induction false} ScoredSum(s: seq<DigestionRecord>)
    requires AllScored(s)
    ensures ScoreSum(Project(s, Score)) == Some(Sum(s, ScoreValue))
  {
    if |s| > 0 {
      var s', last := s[..|s| - 1], s[|s| - 1];
      assert AllScored(s') by {
        forall i | 0 <= i < |s'| ensures Score(s'[i]).Some? {
          assert s'[i] == s[i];
        }
      }
      ScoredSum(s');
      ProjectPrefix(s, Score, |s| - 1);
      assert Score(last).Some?;
      assert ScoreSum(Project(s, Score)) == AddScore(ScoreSum(Project(s', Score)), Score(last));
    }
  }

  /** The sum of the scores of some records is a number exactly when they all are, and is then their plain sum. */
  lemma ScoreSumOfRecords(s: seq<DigestionRecord>)
    ensures ScoreSum(Project(s, Score)) == if AllScored(s) then Some(Sum(s, ScoreValue)) else None
  {
    if AllScored(s) {
      ScoredSum(s);
    } else {
      var i :| 0 <= i < |s| && Score(s[i]).None?;
      assert Project(s, Score)[i].None?;
    }
  }

  /** `averageScoresByDay` has exactly the days of `days`, each mapped to the mean of its scores. */
  lemma {:induction false} AveragesLookup(days: seq<Key>, daily: map<Key, seq<Option<real>>>)
    ensures forall d :: d in Averages(days, daily) <==> d in days
    ensures forall d :: d in days ==> Averages(days, daily)[d] == Mean(ScoresOf(daily, d))
  {
    if |days| > 0 {
      AveragesLookup(days[..|days| - 1], daily);
    }
  }

  /**
    A day's average is the sum of that day's scores divided by the day's number
    of records when every score of the day is a number, and `NaN` otherwise.
  */
  lemma DayAverageIsMean(records: seq<DigestionRecord>, dayOf: Timestamp -> Key, d: Key)
    requires d in Days(records, dayOf)
    ensures var day := Filter(records, DayKey(dayOf), d);
      var avg := AverageOf(Averages(Days(records, dayOf), DailyScores(records, dayOf)), d);
      && |day| > 0
      && avg == if AllScored(day)
                then Some(Sum(day, ScoreValue) / |day| as real)
                else None
  {
    var key := DayKey(dayOf);
    var day := Filter(records, key, d);
    var daily := DailyScores(records, dayOf);
    AveragesLookup(Days(records, dayOf), daily);
    GroupListKeys(records, key, Score);
    GroupListIsProjectedFilter(records, key, Score);
    FilterNonEmptyOnKeys(records, key, d);
    ScoreSumOfRecords(day);
    assert ScoresOf(daily, d) == Project(day, Score);
  }

  /**
    Over distinct days, the concerns are exactly the concerns the days raise:
    each concern belongs to a day that raises it, every day that raises one has
    it in the list, and no day appears twice.
  */
  lemma {:induction false} ConcernsFacts(days: seq<Key>, averages: map<Key, Option<real>>, goal: real)
    requires Distinct(days)
    ensures var cs := Concerns(days, averages, goal);
      && |cs| <= |days|
      && (forall i, j :: 0 <= i < j < |cs| ==> cs[i].day != cs[j].day)
      && (forall c :: c in cs ==> c.day in days && ConcernOf(c.day, AverageOf(averages, c.day), goal) == Some(c))
      && (forall d :: d in days && ConcernOf(d, AverageOf(averages, d), goal).Some? ==>
            ConcernOf(d, AverageOf(averages, d), goal).value in cs)
  {
    if |days| > 0 {
      var days', last := days[..|days| - 1], days[|days| - 1];
      ConcernsFacts(days', averages, goal);
      var cs' := Concerns(days', averages, goal);
      assert last !in days';
      forall d | d in days && ConcernOf(d, AverageOf(averages, d), goal).Some?
        ensures ConcernOf(d, AverageOf(averages, d), goal).value in Concerns(days, averages, goal)
      {
        if d != last {
          var i :| 0 <= i < |days| && days[i] == d;
          assert days'[i] == d;
        }
      }
    }
  }

  /**
    The concerns of the summary: a day with records raises a "Low" concern
    exactly when its average is below `bristol_score - 1`, a "High" concern
    exactly when it is above `bristol_score + 1`, and at most one concern; no
    other concerns are raised.
  */
  lemma ConcernsOfSummary(records: seq<DigestionRecord>, goals: UserGoals, dayOf: Timestamp -> Key)
    ensures var days := Days(records, dayOf);
      var averages := Averages(days, DailyScores(records, dayOf));
      var cs := ScaledSummary(records, goals, dayOf).concerns;
      && |cs| <= |days|
      && (forall i, j :: 0 <= i < j < |cs| ==> cs[i].day != cs[j].day)
      && (forall c :: c in cs ==> c.day in days && AverageOf(averages, c.day) == Some(c.average))
      && (forall d, a :: d in days && AverageOf(averages, d) == Some(a) ==>
            && (Concern(Low, d, a) in cs <==> a < goals.bristol_score - 1.0)
            && (Concern(High, d, a) in cs <==> a > goals.bristol_score + 1.0))
  {
    var days := Days(records, dayOf);
    var averages := Averages(days, DailyScores(records, dayOf));
    var goal := goals.bristol_score;
    var cs := Concerns(days, averages, goal);
    KeysInOrderDistinct(records, DayKey(dayOf));
    ConcernsFacts(days, averages, goal);
    forall d, a | d in days && AverageOf(averages, d) == Some(a)
      ensures && (Concern(Low, d, a) in cs <==> a < goal - 1.0)
              && (Concern(High, d, a) in cs <==> a > goal + 1.0)
    {
      if Concern(Low, d, a) in cs {
        assert ConcernOf(d, AverageOf(averages, d), goal) == Some(Concern(Low, d, a));
      }
      if Concern(High, d, a) in cs {
        assert ConcernOf(d, AverageOf(averages, d), goal) == Some(Concern(High, d, a));
      }
    }
  }

  // ----------------------------------------------------------------- query

  /** `fetchDigestionRecords`: the user's records inside the inclusive window, with no status filter. */
  function FetchDigestionRecords(collection: seq<DigestionRecord>, userId: string, start: Timestamp, end: Timestamp)
    : (r: seq<DigestionRecord>)
    ensures forall x :: x in r <==> x in collection && x.userID == userId && InWindow(x.created_at, start, end)
    ensures forall x :: multiset(r)[x] == if x.userID == userId && InWindow(x.created_at, start, end) then multiset(collection)[x] else 0
  {
    Select(collection, (x: DigestionRecord) => x.userID == userId && InWindow(x.created_at, start, end))
  }
}
