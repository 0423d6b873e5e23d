# gutspy cloud functions — a verified model

This project models the Firebase Cloud Functions back end of the gutspy
health tracker in Dafny and proves properties of that model. The back end has
two parts:

- **Trigger handlers** (`src/index.ts`). The first handler turns an uploaded
  photo's storage path into a new meal or digestion record. The next two drive
  each new record through its processing statuses. The last is the weekly
  scheduler, which writes one summary per user.
- **Weekly aggregation** (`src/water.ts`, `src/meal.ts`, `src/nutrition.ts`,
  `src/digestion.ts`, `src/user.ts`). A week of water, meal and digestion
  records is reduced to the figures of a `WeeklySummary`. The user's goals are
  read or created on the way. Correlation text comes from the AI service
  (`src/services/ai.ts`).

Modules, in dependency order:

| module | models |
|---|---|
| `Wrappers` | `Option` and `Result` |
| `Folds` | `reduce`/`forEach` accumulations: sums, grouping into a JS object, key insertion order, counting |
| `Types` | the record, goal and summary shapes of `src/types.ts`, with the status and type names |
| `Numbers` | `Number()` on digit strings, decimal rendering of a natural number, `Math.round` |
| `Ranking` | sorting `Object.entries(counts)` by descending count (stable), then `slice` |
| `Daily` | the per-day nutrition totals shared by both nutrition analysers |
| `Water`, `Meal`, `Nutrition`, `Digestion` | the analysers and the record queries of their files |
| `AI` | JSON-block extraction, `analyzeImage`/`analyzeText`, `generateCorrelations`, the singleton |
| `Store` | Firestore documents (`update` overwrites the fields it names) and collections (`add` appends) |
| `User` | `fetchUserGoals` and `generateUserWeeklySummary` over a mutable database |
| `Index` | the four exported functions |

How the model is built:

- **Imperative code stays imperative.** Each `forEach`/`reduce` loop is a
  method with a loop. It is proved equal to a specification function, and the
  lemmas state what that function means.
- **Handlers act on `Store.Document` objects.** Each object keeps a ghost log
  of its updates. Every path a handler can take is a value, and the method
  proves that it performs exactly those updates in order.
- **The outside world is a parameter.** This covers storage, the Gemini model,
  `JSON.parse`, the clock and `toLocaleDateString`, whose day key is a
  parameter `dayOf`.

Where the code departs from its evident design, the model follows the code:

- **The correlation fallback never applies.** `generateCorrelations` returns
  the promise of `analyzeText` from inside its `try` without awaiting it. So a
  failed Gemini call, or a reply with no JSON block, rejects the call instead
  of yielding the fallback pair (`src/services/ai.ts:419-427`). As a result,
  the whole user summary fails. `AI.CorrelationsHaveNoFallback` states this,
  and `AI.FallbackOnlyOnThrow` states when the fallback would be taken.
- **Meal "calories" are carbohydrates.** `src/meal.ts` adds
  `carbohydrates` into both the calorie total and the carbohydrate total
  (`src/meal.ts:67-101`). All calorie figures derived from meals are
  therefore carbohydrate sums. `Meal.CaloriesAreCarbohydrates` states this.
  `src/nutrition.ts` uses the real calorie figure.
- **Failed meal processing writes the status `"error"`.** This status is not
  among the `ProcessingStatus` values of `src/types.ts:54-59`
  (`Index.MealErrorEndsInError`).
- **A digestion record without a Bristol scale stops the user's summary.**
  `src/types.ts` declares `bristol_scale` as required, but an upload creates
  the record with the analysis `{source: "ai"}` (`src/index.ts:73-87`). The
  record keeps that shape while it waits and when its photo branch fails. The
  digestion query has no status filter (`src/digestion.ts:123-140`), so
  `bristol_scale.toString()` (`src/digestion.ts:62`) throws on such a record.
  `generateUserWeeklySummary` rejects and the scheduler stores no summary for
  that user (`Index.UnscaledRecordSkipsUser`). The model keeps `bristol_scale`
  optional for this reason.

## Model

| member | source | states |
|---|---|---|
| Types.TypeFromName | src/types.ts:48-52 | a name maps to the record type whose name it is, and to none exactly when no type has that name |
| Types.StatusFromName | src/types.ts:54-59 | a name maps to the processing status whose name it is, and to none exactly when no status has that name |
| Numbers.NumberOf | src/digestion.ts:76 | `Number(s)` on a digit string is that string's decimal value, and the empty string is 0; every other string reads as `NaN` here (see "Left out") |
| Numbers.NatToString | src/index.ts:279 | the decimal rendering of a natural number is a non-empty digit string with no leading zero |
| Numbers.NatToStringRoundTrip | src/index.ts:279 | reading back the rendered Bristol score with `Number` gives the score again |
| Numbers.Round | src/meal.ts:120-122 | `Math.round(x)` is an integer within one half of `x` |
| Ranking.EntriesOf | src/meal.ts:166 | `Object.entries(counts)` pairs each key, in insertion order, with its count |
| Ranking.SortPermutes | src/meal.ts:167 | sorting the entries by count neither adds nor drops an entry |
| Ranking.SortSorts | src/meal.ts:167 | after the sort the counts never increase along the list |
| Ranking.SortIsStable | src/meal.ts:167 | entries with equal counts keep their relative order |
| Ranking.SortKeepsNamesDistinct | src/meal.ts:167 | sorting keeps ingredient names distinct |
| Ranking.CountsAreMultiplicities | src/meal.ts:158-164 | the count stored for each ingredient is its number of occurrences |
| Ranking.Take | src/meal.ts:168 | `slice(0, n)` is the prefix of length at most `n`, and is the whole list when shorter than `n` |
| Ranking.CountEntries | src/meal.ts:158-166 | the entries name each listed ingredient exactly once, with its number of occurrences |
| Ranking.RankedEntries | src/meal.ts:158-167 | the ranked entries are sorted by count, distinct, exact in their counts, and cover every ingredient |
| Ranking.MostFrequentIsRankedPrefix | src/meal.ts:166-169 | the result is the first `n` names of the ranked entries |
| Ranking.MostFrequentShape | src/meal.ts:154-170 | at most `n` distinct names, all occurring in the input, in non-increasing order of occurrences |
| Ranking.MostFrequentDominates | src/meal.ts:154-170 | every name left out occurs no more often than any name kept |
| Ranking.MostFrequentComplete | src/meal.ts:154-170 | when fewer than `n` names are returned, every name occurring in the input is among them |
| Daily.BuildDailyTotals | src/meal.ts:87-114 | the per-day loop produces the daily totals, with days in first-seen order |
| Daily.DailyTotalsKeys | src/meal.ts:87-114 | a day has totals exactly when some record falls on it |
| Daily.ColumnIsDaySum | src/meal.ts:87-114 | each day's figure for a nutrient is the per-day grouped sum of that nutrient |
| Daily.DaySumsAddUp | src/meal.ts:87-114 | the daily figures of a nutrient add up to its total over all records |
| Daily.DaySumIsSumOfDay | src/meal.ts:87-114 | a day's figure is the sum over exactly the records of that day |
| Daily.DaysMetIsCardinality | src/meal.ts:134-145 | the `daysMet…Target` count is the number of days whose figure reaches the goal |
| Daily.DailyTotalsPermutation | src/meal.ts:87-145 | reordering the records changes neither the daily figures nor the days-met counts |
| Water.WaterAnalysisOf | src/water.ts:19-48 | no records give all zeros; the days meeting the target never outnumber the days with records |
| Water.AnalyzeWaterIntake | src/water.ts:19-48 | the `reduce`/`forEach` computation yields the water analysis |
| Water.DailyIntakesAddUp | src/water.ts:25-36 | the per-day intakes add up to the total intake; there is a day for each distinct date and never more days than records |
| Water.DayIntakeIsSumOfDay | src/water.ts:29-36 | a day's intake is the sum of the amounts recorded on that day |
| Water.DaysExistIffRecords | src/water.ts:40-41 | there are days with records exactly when there are records |
| Water.DailyAverageSpreadsTotal | src/water.ts:40-41 | the daily average times the number of days is the total intake, also with no records, where both are 0 |
| Water.DaysMetTargetCounts | src/water.ts:46 | `daysMetTarget` is the number of days whose intake reaches the water goal |
| Water.LowerGoalMeetsMoreDays | src/water.ts:46 | lowering the water goal never lowers `daysMetTarget` |
| Water.AnalysisOrderIndependent | src/water.ts:19-48 | the analysis does not depend on the order the query returned the records in |
| Water.FetchWaterRecords | src/water.ts:56-73 | the query keeps exactly the user's records inside the inclusive window, each as often as stored |
| Meal.CountIngredients | src/meal.ts:158-164 | the counting loop extends the counts and the key order by one meal's ingredients |
| Meal.ExtractCommonIngredients | src/meal.ts:154-170 | the loop-and-sort computation yields the common ingredients |
| Meal.NutritionAnalysisOf | src/meal.ts:61-147 | `mealsCount` is the number of records; every days-met count is bounded by the days with records; no records give zeros |
| Meal.AnalyzeNutrition | src/meal.ts:61-147 | the loops yield the meal nutrition analysis, with the common ingredients of the same records |
| Meal.DaySumsAddUp | src/meal.ts:67-114 | each nutrient's daily figures add up to its total, and a day's figure is the sum over that day's meals |
| Meal.CaloriesAreCarbohydrates | src/meal.ts:67-101 | every calorie figure, daily, total and target count, is the carbohydrate figure |
| Meal.DaysExistIffMeals | src/meal.ts:116 | there are days with meals exactly when there are meals |
| Meal.MealAverageSpreadsCalories | src/meal.ts:84-85 | the average per meal times the number of meals is the calorie total, also with no meals, where both are 0 |
| Meal.RoundedAverageFacts | src/meal.ts:116-123 | a macro average is an integer within one half of the per-day mean, and 0 when there are no days |
| Meal.DaysMetCounts | src/meal.ts:134-145 | each days-met count is the number of days whose figure reaches that goal |
| Meal.AnalysisOrderIndependent | src/meal.ts:61-147 | apart from `commonIngredients`, which is passed in fixed, the analysis does not depend on the order of the records |
| Meal.TotalsOrderIndependent | src/meal.ts:67-85 | the totals, the meal count and the number of days do not depend on record order |
| Meal.DaysMetOrderIndependent | src/meal.ts:134-145 | the days-met counts do not depend on record order |
| Meal.AllIngredientsMembership | src/meal.ts:158-164 | an ingredient is counted exactly when some meal lists it |
| Meal.CommonIngredientsFacts | src/meal.ts:154-170 | at most ten distinct ingredients, each from some meal, ordered by frequency, none left out more frequent than one kept, and all of them when fewer than ten |
| Meal.CommonIsAll | src/meal.ts:154-170 | with at most ten different ingredients, the common ingredients are exactly the ingredients of the meals |
| Meal.CommonIngredientsOrderIndependent | src/meal.ts:154-170 | with at most ten different ingredients, which ingredients are common does not depend on the order of the meals |
| Meal.CommonIngredientsTieOrder | src/meal.ts:166-169 | ties keep first-seen order, so meals `[x]`, `[y]` give `["x", "y"]` and the reverse order gives `["y", "x"]`: the list itself depends on record order |
| Meal.TieKeepsFirstSeen | src/meal.ts:166-169 | two ingredients seen once each are ranked in the order they were first seen |
| Meal.FetchMealRecords | src/meal.ts:179-197 | the query keeps exactly the user's processed meal records inside the inclusive window, each as often as stored |
| Nutrition.NutritionAnalysisOf | src/nutrition.ts:22-95 | `mealsCount` is the number of records; the common ingredients are empty; the days-met counts are bounded by the days; no records give zeros |
| Nutrition.AnalyzeNutrition | src/nutrition.ts:22-95 | the loops yield the nutrition analysis |
| Nutrition.DaySumsAddUp | src/nutrition.ts:28-62 | each nutrient's daily figures add up to its total, and a day's figure is the sum over that day's meals |
| Nutrition.DaysExistIffMeals | src/nutrition.ts:64 | there are days with meals exactly when there are meals |
| Nutrition.PerDaySpreadsTotal | src/nutrition.ts:66-71 | a per-day average times the number of days is the total, and 0 when there are no days |
| Nutrition.MealAverageSpreadsCalories | src/nutrition.ts:33-34 | the average per meal times the meal count is the calorie total, and 0 with no meals |
| Nutrition.MacroAveragesArePerDay | src/nutrition.ts:64-71 | each macro average is its total spread over the days with records |
| Nutrition.DaysMetCounts | src/nutrition.ts:82-93 | each days-met count is the number of days whose figure reaches that goal |
| Nutrition.CalorieTargetExample | src/nutrition.ts:82-84 | 500 and 700 kcal on one day and 600 on another, against 1000, meet the target on one day out of 1800 kcal |
| Nutrition.AnalysisOrderIndependent | src/nutrition.ts:22-95 | the analysis does not depend on the order of the records |
| Nutrition.TotalsOrderIndependent | src/nutrition.ts:28-34 | the totals, the meal count and the number of days do not depend on record order |
| Nutrition.DaysMetOrderIndependent | src/nutrition.ts:82-93 | the days-met counts do not depend on record order |
| Nutrition.FetchMealRecords | src/nutrition.ts:104-121 | the query keeps exactly the user's meal records inside the inclusive window, each as often as stored |
| Digestion.ScoreSum | src/digestion.ts:84 | the score sum is a number exactly when every score is (a `NaN` poisons it) |
| Digestion.ConcernOf | src/digestion.ts:92-103 | a day is low exactly when its average is more than 1 below the goal, high exactly when more than 1 above it, and carries that day and average |
| Digestion.ScaledSummary | src/digestion.ts:52-114 | for records that all carry a Bristol scale: `frequency` is the number of records, the characteristics are empty, and no records give an empty distribution and no concerns |
| Digestion.DigestionSummaryOf | src/digestion.ts:52-114 | the analysis resolves exactly when every record carries a `bristol_scale`, and otherwise rejects with the `TypeError` of `undefined.toString()`; on success `frequency` is the number of records and the distribution is the scale count |
| Digestion.CountScales | src/digestion.ts:60-67 | the counting loop yields the Bristol-scale distribution exactly when every record has a scale, and throws the `TypeError` otherwise |
| Digestion.UnscaledRecordThrows | src/digestion.ts:60-67 | one record without a `bristol_scale` makes the whole analysis reject |
| Digestion.GroupScoresByDay | src/digestion.ts:69-79 | the grouping loop yields each day's scores and the days in first-seen order |
| Digestion.MeanScore | src/digestion.ts:84 | the `reduce` yields the mean of a day's scores |
| Digestion.AverageByDay | src/digestion.ts:82-88 | the loop yields each day's average |
| Digestion.CollectConcerns | src/digestion.ts:97-103 | the loop yields the concerns, in day order |
| Digestion.AnalyzeDigestion | src/digestion.ts:52-114 | the steps together yield the digestion summary, or the rejection of the distribution loop |
| Digestion.DistributionAddsUp | src/digestion.ts:60-67 | when every record has a scale, the distribution's counts add up to the number of records; a scale has a count exactly when some record has it, and its count is its number of records |
| Digestion.ScoreSumOfRecords | src/digestion.ts:84 | a day's score sum is the sum of its scores when all of them are numbers, and `NaN` otherwise |
| Digestion.AveragesLookup | src/digestion.ts:82-88 | there is an average exactly for each day, and it is the mean of that day's scores |
| Digestion.DayAverageIsMean | src/digestion.ts:69-88 | a day's average is the sum of that day's scores over their number, or `NaN` when a score is not a number |
| Digestion.ConcernsFacts | src/digestion.ts:97-103 | at most one concern per day, every concern belongs to a day and agrees with its average, and every day that warrants one has it |
| Digestion.ConcernsOfSummary | src/digestion.ts:90-103 | in the summary, a day with average `a` has a low concern exactly when `a` is below goal − 1, and a high one exactly when above goal + 1 |
| Digestion.FetchDigestionRecords | src/digestion.ts:123-140 | the query keeps exactly the user's digestion records inside the inclusive window, each as often as stored |
| AI.FindFrom | src/services/ai.ts:129-130 | `indexOf(pat, from)` gives the first occurrence at or after `from`, or none when there is none |
| AI.ExtractJsonIsLeftmostMatch | src/services/ai.ts:129-135 | no JSON block is found exactly when the reply has no fenced block; otherwise the block is the body of the leftmost one |
| AI.ExtractJsonHasNoClose | src/services/ai.ts:129-135 | an extracted block never contains the closing fence |
| AI.ExtractJsonRoundTrip | src/services/ai.ts:129-135 | fencing a JSON text behind plain text and extracting it gives the text back |
| AI.Answer | src/services/ai.ts:117-155 | a failed request stays failed, a reply with no fenced block fails with the fixed message, otherwise the block goes to `JSON.parse` |
| AI.TryReturn | src/services/ai.ts:419-427 | only a throw at the call gives the fallback; a returned promise passes through unchanged |
| AI.Payload | src/services/ai.ts:361-380 | the payload has one entry per water, meal and digestion record, in record order, each built from its record's fields |
| AI.PayloadAppend | src/services/ai.ts:361-380 | the payload of two stretches of records is the first's entries followed by the second's |
| AI.CorrelationsHaveNoFallback | src/services/ai.ts:419-427 | the correlations are `analyzeText`'s own outcome, so a failed request or a reply with no block fails the call |
| AI.FallbackOnlyOnThrow | src/services/ai.ts:419-427 | the fallback is returned exactly when the call threw, or when the model itself answered with the fallback |
| AI.AIService.constructor | src/services/ai.ts:95-98 | the service uses the model `gemini-2.0-flash` |
| AI.AIService.AnalyzeImage | src/services/ai.ts:117-136 | the image analysis is the decoded answer of the model's reply |
| AI.AIService.AnalyzeText | src/services/ai.ts:143-155 | the text analysis is the decoded answer of the model's reply |
| AI.AIService.Decode | src/services/ai.ts:129-135 | the block extraction and parse give the decoded answer |
| AI.AIService.GenerateCorrelations | src/services/ai.ts:355-428 | the method's outcome is that of `generateCorrelations` as written |
| AI.Registry.GetInstance | src/services/ai.ts:104-109 | the first call creates the service, and every later call returns that same service |
| AI.GetInstanceTwice | src/services/ai.ts:104-109 | two calls return the same object, which the registry keeps |
| Store.LastWriteWins | src/index.ts:274-290 | after a series of updates, a field holds the value of the last update that named it |
| Store.UnwrittenFieldKept | src/index.ts:224-230 | a field no update names keeps its value, and its presence or absence |
| Store.AfterAppend | src/index.ts:139-189 | two series of updates in a row act as the first series then the second |
| Store.Document.Update | src/index.ts:139-141 | `update` overwrites the named fields, keeps the rest, and logs the update |
| Store.Collections.Add | src/index.ts:104 | `add` appends one document to the named collection and changes no other collection |
| User.StoredGoalsReturned | src/user.ts:44-46 | stored goals are returned unchanged and nothing is written |
| User.MissingGoalsDefaulted | src/user.ts:21-50 | missing goals are created with 2200 kcal, 2000 ml, macros 30/40/30 and Bristol 4, stored, and returned |
| User.SecondFetchReadsStored | src/user.ts:38-57 | fetching again returns the same goals and writes nothing more |
| User.StoreErrorRethrown | src/user.ts:51-56 | a store failure is rethrown with the fixed prefix and writes nothing |
| User.AnalyzeWeek | src/user.ts:76-78 | the three analysers run on the week's records with the user's goals, and a rejected digestion analysis rejects the call |
| User.SummaryComposition | src/user.ts:64-97 | a stored summary belongs to the user and the window, its totals and counts are those of the user's records in the window, and every digestion record of the week has a Bristol scale |
| User.WeekComposition | src/user.ts:76-97 | once the goals are in, a summary carries the user, the window, the records' water total, meal totals and count and digestion frequency |
| User.SummaryFailures | src/user.ts:64-97 | a goals failure fails the summary with the prefixed message; otherwise a week's digestion record without a Bristol scale fails it with the `TypeError`; otherwise a correlation failure fails it with that error |
| User.Database.FetchUserGoals | src/user.ts:38-57 | the fetch returns and stores goals as described, and changes no record collection |
| User.Database.GenerateUserWeeklySummary | src/user.ts:64-101 | the outcome is the user's summary; goals may be created; exactly the successful summary is appended; records are unchanged |
| User.Database.Summarize | src/user.ts:76-100 | given goals and records, the summary is composed and stored only on success |
| Index.Split | src/index.ts:38 | `split("/")` gives at least one segment, and no segment contains `/` |
| Index.JoinSplit | src/index.ts:38 | joining the segments of a path with `/` gives the path back |
| Index.SplitJoin | src/index.ts:38 | splitting segments joined with `/` gives the segments back |
| Index.CollectionOf | src/index.ts:58-70 | every record type has a non-empty collection name, so the empty-collection branch is unreachable |
| Index.RecordFor | src/index.ts:34-108 | a record is created exactly for a non-empty path with at least three segments whose second is `meals` or `digestions` |
| Index.UploadRecord | src/index.ts:38-108 | `user/meals/file` creates a meal record and `user/digestions/file` a digestion record for that user and file; `profile` and any other kind create none; segments after the third are ignored |
| Index.RecordOfSegmentsCases | src/index.ts:53-108 | the record chosen by the type segment |
| Index.RecordForJoin | src/index.ts:38-46 | a path built from `/`-free segments is handled by those segments |
| Index.RecordOfFirstThree | src/index.ts:44-46 | only the first three segments matter |
| Index.FileCreated | src/index.ts:30-115 | the new record is added to its collection; an ignored path or a failed `add` leaves the database unchanged |
| Index.OnImageProcessingRecordCreated | src/index.ts:117-192 | the meal document receives exactly the updates of the path taken, in order |
| Index.ProcessMealPhoto | src/index.ts:138-190 | after the existence check, the document receives exactly the updates of the run |
| Index.MealMissingDataUntouched | src/index.ts:133-136 | a meal record missing its file name, user or type is not touched |
| Index.MealStuckInProcessing | src/index.ts:139-154 | when the photo is missing, the record is left in `processing` |
| Index.MealProcessed | src/index.ts:168-174 | a successful analysis marks the record `processed`, with the report and the processing time |
| Index.MealErrorEndsInError | src/index.ts:180-189 | any failure after the record is marked `processing` ends in `"error"` with the message and preview, a status outside the declared ones |
| Index.MealFinalStatus | src/index.ts:138-190 | a meal that passes the check is first marked `processing` and ends `processing`, `processed` or `"error"` |
| Index.MealRunFinalStatus | src/index.ts:138-190 | every run after the check starts with `processing` and ends in one of those three statuses |
| Index.MergedAnalysisKeeps | src/index.ts:276-287 | the merged analysis has the score as a digit string that reads back as the score, source `ai`, and every other old field |
| Index.OnDigestionRecordCreated | src/index.ts:195-307 | the digestion document receives exactly the updates of the path taken, in order |
| Index.ProcessDigestionPhoto | src/index.ts:245-303 | the photo path receives exactly the updates of its run |
| Index.AnalyzeDigestionPhoto | src/index.ts:261-302 | with the photo present, the document receives exactly the updates of the analysis run |
| Index.DigestionCrashWritesNothing | src/index.ts:219 | a record with no analysis throws before any update |
| Index.ManualRecordOutcome | src/index.ts:219-239 | a manual record becomes `processed` with the AI concerns and recommendations, or `failed` with the message, and its analysis is kept |
| Index.MissingPhotoFails | src/index.ts:245-258 | a photo record whose file is missing is marked `failed`, its analysis is kept as it was, and nothing else happens |
| Index.PhotoRecordProcessed | src/index.ts:261-290 | a successful image analysis marks the record `processed`, with the old analysis merged with the new one |
| Index.NeitherManualNorPhotoUntouched | src/index.ts:219-240 | a record that is neither manual nor has a file name is not touched |
| Index.DigestionStatusesDeclared | src/index.ts:224-301 | every status the digestion handler writes is a declared processing status |
| Index.UploadedMealChecked | src/index.ts:89-147 | a meal record created by an upload passes the handler's check exactly when user and file are non-empty, and points back at the uploaded path |
| Index.UploadedDigestionChecked | src/index.ts:73-245 | a digestion record created by an upload is a photo record whose path is the uploaded one, and its analysis has no `bristol_scale` |
| Index.OutcomesWith | src/index.ts:329-336 | the scheduler produces one outcome per listed user |
| Index.GenerateWeeklySummaries | src/index.ts:309-343 | each listed user's summary is attempted over the last seven days; successes are stored in user order; goals are created as the users are visited |
| Index.SummarizeNext | src/index.ts:329-336 | one loop iteration extends the outcomes, goals and stored summaries by one user |
| Index.OutcomesStep | src/index.ts:329-336 | visiting one more user appends that user's outcome, computed with the goals left by the earlier users |
| Index.SuccessesStep | src/index.ts:329-336 | only a successful outcome adds a stored summary |
| Index.OutcomeOfUser | src/index.ts:329-336 | the i-th outcome is the i-th user's, computed with the goals left by the users before it |
| Index.UserSummaryOutcome | src/index.ts:329-336 | the i-th outcome is `generateUserWeeklySummary` for the i-th user |
| Index.GoalsAfterUsersKeys | src/index.ts:329-336 | stored goals are kept, each visited user whose goals could be read ends up with goals, and no other user gets any |
| Index.StoredSummariesWith | src/index.ts:329-336 | whatever each step does, no more summaries than users are stored, each for a listed user and for the week, and no two for one user when no user is listed twice |
| Index.FailedUserStoresNothing | src/index.ts:329-336 | when no user is listed twice, a user whose summary throws has no stored summary |
| Index.SummaryStepFacts | src/user.ts:64-97 | every summary `generateUserWeeklySummary` produces is for the user and the window asked for |
| Index.SummariesOfListedUsers | src/index.ts:318-336 | the scheduler stores summaries only for listed users and the last week, no more than there are users, and at most one per user when no user is listed twice |
| Index.UnscaledRecordSkipsUser | src/index.ts:73-87 | a week's digestion record still without a Bristol scale (not yet analysed, or failed) makes that user's summary throw the `TypeError`, and no summary is stored for that user |

## Left out

- Cloud Storage (download, temporary files, `unlink`) and base64 encoding: what they do is not modelled. Each call is only an outcome given as input, success or a thrown error.
- The Gemini model and the prompt texts: a model reply is an input, and `JSON.parse` is a parameter `parse`.
- `AIService.getInstance` inside the two record handlers: their AI answers are inputs, so the singleton is modelled only in `AI.Registry`.
- Firestore failures of `update`, `get` and queries: they are not modelled. The only modelled failures are a failed `add` in `fileCreated` (a flag) and the goals read in `fetchUserGoals` (an input error).
- Query order: the queries keep the collection's order. The analysis lemmas prove that the order does not matter.
- `Promise.all` concurrency: the goals read and the three queries happen one after another, which is observably the same because they touch different data.
- `toLocaleDateString`: the day key of a timestamp is a parameter `dayOf`.
- Floating point: amounts and averages are real numbers, with no rounding beyond the explicit `Math.round`.
- Index.MergedAnalysisKeeps: `Number()` on strings other than digit strings is not modelled. The AI's `bristol_stool_scale` is typed `number` (`src/services/ai.ts:40`) and the prompt asks for a type from 1 to 7 (`src/services/ai.ts:277`). The model takes it to be a natural number, so its rendering is always a digit string; a fractional or negative answer is not modelled.
- Digestion.ConcernOf: a concern is a structured value (level, day, average), not the English sentence built with `toFixed(1)`.
- Micronutrients, the caloric breakdown, the dish name and the ingredient categories are carried only as far as the analysers use them.
- JavaScript objects list integer-like keys first. Here day keys and ingredient names are kept in insertion order. That matches the source for date strings. It does not match for ingredient names such as "2" when `Object.entries` runs at `src/meal.ts:166`.
- Numbers.NumberOf: strings with a sign, a decimal point, an exponent or surrounding white space (such as "4.5", " 4 ", "-1" or "1e1") read as `NaN` here, although `Number` reads them as numbers. The Bristol scale the handlers write is a digit string for an AI answer on the 1–7 scale, which the model assumes (see the `Index.MergedAnalysisKeeps:` line).
- Meal.AnalysisOrderIndependent: `commonIngredients` is held fixed. Its list depends on record order when counts tie (`Meal.CommonIngredientsTieOrder`), and its set is proved order-independent only for at most ten different ingredients (`Meal.CommonIngredientsOrderIndependent`).
- Index.OnImageProcessingRecordCreated: the stack trace in `response_preview` is an input string.
- Index.OnDigestionRecordCreated: an `analysis` field that is not an object is spread as if it were empty.
- Index.GenerateWeeklySummaries: one timestamp serves as every user's end date and creation time. The source reads the clock again for each user.
- Index.GenerateWeeklySummaries: the result of `listUsers` is an input, and the schedule configuration is not modelled. `auth.listUsers()` is called without a page token (`src/index.ts:324`), so it returns at most 1000 users, and users after the first page never get a summary. The input list stands for that first page.
- Index.OnImageProcessingRecordCreated: the checked fields are modelled by JavaScript truthiness, and path pieces that are not strings read as empty.
- `src/dev-triggers.ts` and the logging calls are not part of this model.
