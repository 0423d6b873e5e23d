/**
  The AI service: the singleton that owns the generative model, the extraction
  of the fenced JSON block from every model reply, and the correlation request
  built from a week of records.

  The model itself is a parameter: a reply is `Success(text)` or `Failure(e)`
  for a rejected `generateContent`, and `JSON.parse` is a parameter `parse`.
*/
module AI {
  import opened Wrappers
  import opened Folds
  import opened Types
  import Water
  import Meal
  import Digestion

  /** The opening fence `` ```json `` followed by a line break. */
  const Open: string := "```json\n"

  /** A line break followed by the closing fence. */
  const Close: string := "\n```"

  const NoJsonError: string := "Could not find JSON content in response"

  /** `pat` occurs in `s` at index `i`. */
  predicate MatchAt(s: string, pat: string, i: int)
  {
    0 <= i && i + |pat| <= |s| && forall k :: 0 <= k < |pat| ==> s[i + k] == pat[k]
  }

  /** The first occurrence of `pat` in `s` at or after `from`. */
  function FindFrom(s: string, pat: string, from: nat): (r: Option<nat>)
    ensures r.Some? ==> from <= r.value && MatchAt(s, pat, r.value)
    ensures r.Some? ==> forall j :: from <= j < r.value ==> !MatchAt(s, pat, j)
    ensures r.None? ==> forall j :: from <= j ==> !MatchAt(s, pat, j)
    decreases |s| - from
  {
    if from + |pat| > |s| then None
    else if MatchAt(s, pat, from) then Some(from)
    else FindFrom(s, pat, from + 1)
  }

  /**
    A match of `/```json\n([\s\S]*?)\n```/` starting at `i` whose lazy group
    ends at `j`: the opening fence at `i`, the closing fence at `j`, and no
    closing fence in between.
  */
  predicate Fenced(s: string, i: int, j: int)
  {
    && MatchAt(s, Open, i)
    && i + |Open| <= j
    && MatchAt(s, Close, j)
    && forall k :: i + |Open| <= k < j ==> !MatchAt(s, Close, k)
  }

  /** `responseText.match(...)[1]`: the text after the first opening fence, up to the earliest closing fence after it. */
  function ExtractJson(s: string): Option<string>
  {
    match FindFrom(s, Open, 0)
    case None => None
    case Some(i) =>
      match FindFrom(s, Close, i + |Open|)
      case None => None
      case Some(j) => Some(s[i + |Open|..j])
  }

  /**
    The extractor agrees with the regular expression: it finds nothing exactly
    when no match exists, and otherwise returns the group of the leftmost match.
  */
  lemma ExtractJsonIsLeftmostMatch(s: string)
    ensures ExtractJson(s).None? <==> forall i, j :: !Fenced(s, i, j)
    ensures forall i, j :: Fenced(s, i, j) && (forall i', j' :: i' < i ==> !Fenced(s, i', j')) ==>
              ExtractJson(s) == Some(s[i + |Open|..j])
  {
    match FindFrom(s, Open, 0)
    case None =>
    case Some(i0) =>
      match FindFrom(s, Close, i0 + |Open|)
      case None =>
        forall i, j ensures !Fenced(s, i, j) {
          if MatchAt(s, Open, i) {
            assert i0 <= i;
          }
        }
      case Some(j0) =>
        assert Fenced(s, i0, j0);
        forall i, j | Fenced(s, i, j) && (forall i', j' :: i' < i ==> !Fenced(s, i', j'))
          ensures ExtractJson(s) == Some(s[i + |Open|..j])
        {
          assert i0 <= i;
          assert !(i0 < i);
          assert !(j < j0) && !(j0 < j);
        }
  }

  /** The extracted text never contains the closing fence. */
  lemma ExtractJsonHasNoClose(s: string)
    requires ExtractJson(s).Some?
    ensures forall k :: !MatchAt(ExtractJson(s).value, Close, k)
  {
    var i := FindFrom(s, Open, 0).value;
    var a := i + |Open|;
    var j := FindFrom(s, Close, a).value;
    forall k ensures MatchAt(s[a..j], Close, k) ==> MatchAt(s, Close, a + k) && a + k < j {
      SliceMatch(s, a, j, Close, k);
    }
  }

  /** A match inside a slice is a match in the whole string at the shifted index. */
  lemma SliceMatch(s: string, a: int, b: int, pat: string, k: int)
    requires 0 <= a <= b <= |s|
    ensures MatchAt(s[a..b], pat, k) ==> MatchAt(s, pat, a + k) && a + k + |pat| <= b
  {
    if MatchAt(s[a..b], pat, k) {
      forall m | 0 <= m < |pat| ensures s[a + k + m] == pat[m] {
        assert s[a..b][k + m] == s[a + k + m];
      }
    }
  }

  /** `FindFrom` returns a match with no match between `from` and it. */
  lemma FindFromIs(s: string, pat: string, from: nat, p: nat)
    requires from <= p && MatchAt(s, pat, p)
    requires forall j :: from <= j < p ==> !MatchAt(s, pat, j)
    ensures FindFrom(s, pat, from) == Some(p)
  {
    var r := FindFrom(s, pat, from);
    assert r.Some? && !(r.value < p) && !(p < r.value);
  }

  /**
    Round trip: a reply made of leading text without backticks, the opening
    fence, a text without the closing fence, the closing fence and anything
    after it yields exactly that text.
  */
  lemma ExtractJsonRoundTrip(prefix: string, json: string, suffix: string)
    requires '`' !in prefix
    requires forall k :: !MatchAt(json, Close, k)
    ensures ExtractJson(prefix + Open + json + Close + suffix) == Some(json)
  {
    StartsWith(Close, suffix);
    ExtractFromParts(prefix, json, Close + suffix);
    Regroup(prefix, Open, json, Close, suffix);
  }

  lemma StartsWith(pat: string, rest: string)
    ensures MatchAt(pat + rest, pat, 0)
  {
    forall m | 0 <= m < |pat| ensures (pat + rest)[0 + m] == pat[m] {}
  }

  /** The round trip on `prefix + Open` followed by `json + w`, where `w` starts with the closing fence. */
  lemma ExtractFromParts(prefix: string, json: string, w: string)
    requires '`' !in prefix
    requires forall k :: !MatchAt(json, Close, k)
    requires MatchAt(w, Close, 0)
    ensures ExtractJson((prefix + Open) + (json + w)) == Some(json)
  {
    var x := prefix + Open;
    var s := x + (json + w);
    OpenAfterPlainText(prefix, json + w);
    FindFromIs(s, Open, 0, |prefix|);
    CloseFound(x, json, w);
    ExtractFound(s, |prefix|, |x| + |json|);
    MiddleSlice(x, json, w);
  }

  /** After any `x`, the search for the closing fence from the start of `json` stops right after it. */
  lemma CloseFound(x: string, json: string, w: string)
    requires forall k :: !MatchAt(json, Close, k)
    requires MatchAt(w, Close, 0)
    ensures FindFrom(x + (json + w), Close, |x|) == Some(|x| + |json|)
  {
    var s := x + (json + w);
    var a, b := |x|, |x| + |json|;
    assert w[0 + 0] == Close[0];
    assert Close[0] == '\n';
    NoCloseAcrossEnd(json, w);
    forall k | a <= k < b ensures !MatchAt(s, Close, k) {
      MatchShift(x, json + w, Close, k - a);
    }
    assert MatchAt(s, Close, b) by {
      MatchShift(json, w, Close, 0);
      MatchShift(x, json + w, Close, |json|);
    }
    FindFromIs(s, Close, a, b);
  }

  lemma Regroup(p: string, o: string, j: string, c: string, x: string)
    ensures p + o + j + c + x == (p + o) + (j + (c + x))
  {
  }

  lemma MiddleSlice(x: string, m: string, w: string)
    ensures (x + (m + w))[|x|..|x| + |m|] == m
  {
  }

  /** After text without backticks, the first opening fence of `prefix + Open + rest` is the one after `prefix`. */
  lemma OpenAfterPlainText(prefix: string, rest: string)
    requires '`' !in prefix
    ensures MatchAt((prefix + Open) + rest, Open, |prefix|)
    ensures forall i :: 0 <= i < |prefix| ==> !MatchAt((prefix + Open) + rest, Open, i)
  {
    var t := (prefix + Open) + rest;
    forall m | 0 <= m < |Open| ensures t[|prefix| + m] == Open[m] {}
    forall i | 0 <= i < |prefix| ensures !MatchAt(t, Open, i) {
      assert t[i + 0] == prefix[i] != Open[0];
    }
  }

  /** `ExtractJson` returns the text between the two places its searches stop. */
  lemma ExtractFound(s: string, i: nat, j: nat)
    requires FindFrom(s, Open, 0) == Some(i)
    requires FindFrom(s, Close, i + |Open|) == Some(j)
    ensures ExtractJson(s) == Some(s[i + |Open|..j])
  {
  }

  /** A match inside the second half of a concatenation is a match in the whole at the shifted index. */
  lemma MatchShift(x: string, y: string, pat: string, k: int)
    requires 0 <= k
    ensures MatchAt(x + y, pat, |x| + k) <==> MatchAt(y, pat, k)
  {
    if MatchAt(y, pat, k) {
      forall m | 0 <= m < |pat| ensures (x + y)[|x| + k + m] == pat[m] {
        assert (x + y)[|x| + k + m] == y[k + m];
      }
    }
    if MatchAt(x + y, pat, |x| + k) {
      forall m | 0 <= m < |pat| ensures y[k + m] == pat[m] {
        assert (x + y)[|x| + k + m] == y[k + m];
      }
    }
  }

  /**
    A text without the closing fence, followed by a line break, has no closing
    fence starting inside the text: the fence goes on with backticks only after
    its line break.
  */
  lemma NoCloseAcrossEnd(json: string, w: string)
    requires forall k :: !MatchAt(json, Close, k)
    requires 0 < |w| && w[0] == '\n'
    ensures forall k :: k < |json| ==> !MatchAt(json + w, Close, k)
  {
    var t := json + w;
    forall k | 0 <= k < |json| ensures !MatchAt(t, Close, k) {
      if k + |Close| <= |json| {
        PrefixMatch(json, w, Close, k);
      } else {
        assert t[k + (|json| - k)] == '\n' != Close[|json| - k];
      }
    }
  }

  /** A match that ends inside the first half of a concatenation is a match in the first half. */
  lemma PrefixMatch(x: string, y: string, pat: string, k: int)
    requires 0 <= k && k + |pat| <= |x|
    ensures MatchAt(x + y, pat, k) ==> MatchAt(x, pat, k)
  {
    if MatchAt(x + y, pat, k) {
      forall m | 0 <= m < |pat| ensures x[k + m] == pat[m] {
        assert (x + y)[k + m] == x[k + m];
      }
    }
  }

  // ------------------------------------------------------------ replies

  /**
    What `analyzeImage` and `analyzeText` make of the model's reply: a rejected
    request stays rejected, a reply without a fenced block is rejected with
    "Could not find JSON content in response", and the block is handed to `parse`.
  */
  function Answer<T>(reply: Result<string, string>, parse: string -> Result<T, string>): (r: Result<T, string>)
    ensures reply.Failure? ==> r == Failure(reply.error)
    ensures reply.Success? ==>
      (r == Failure(NoJsonError) && (forall i, j :: !Fenced(reply.value, i, j)))
      || (ExtractJson(reply.value).Some? && r == parse(ExtractJson(reply.value).value)
          && forall k :: !MatchAt(ExtractJson(reply.value).value, Close, k))
  {
    match reply
    case Failure(e) => Failure(e)
    case Success(text) =>
      ExtractJsonIsLeftmostMatch(text);
      match ExtractJson(text)
      case None => Failure(NoJsonError)
      case Some(json) =>
        ExtractJsonHasNoClose(text);
        parse(json)
  }

  /** How the `try` body's call ended: it threw before returning, or returned a promise with its outcome. */
  datatype Call<T> = Threw(error: string) | Returned(promise: Result<T, string>)

  /** `try { return <call>; } catch { return fallback; }` in an async function: only a throw at the call is caught. */
  function TryReturn<T>(call: Call<T>, fallback: T): (r: Result<T, string>)
    ensures call.Threw? ==> r == Success(fallback)
    ensures call.Returned? ==> r == call.promise
  {
    match call
    case Threw(_) => Success(fallback)
    case Returned(p) => p
  }

  /** Calling the async `analyzeText`: it never throws at the call, every failure is a rejection of its promise. */
  function AnalyzeTextCall<T>(reply: Result<string, string>, parse: string -> Result<T, string>): Call<T>
  {
    Returned(Answer(reply, parse))
  }

  const FallbackMessage: string := "Unable to generate correlations due to analysis error"

  const Fallback := CorrelationAnalysisResult([FallbackMessage], [FallbackMessage])

  // ------------------------------------------------------------ payload

  datatype WaterEntry = WaterEntry(amount: real, timestamp: Timestamp)

  datatype MealEntry = MealEntry(timestamp: Timestamp, nutritional_report: Meal.NutritionalReport)

  datatype Characteristics = Characteristics(color: string, consistency: string, has_blood: bool, has_mucus: bool)

  /** `bristol_scale` is `None` where the record has none (the key is then left out of the JSON). */
  datatype DigestionEntry = DigestionEntry(bristol_scale: Option<string>, timestamp: Timestamp, characteristics: Characteristics)

  /** `analysisData`, the week of records the correlation prompt is rendered from. */
  datatype AnalysisData = AnalysisData(water_intake: seq<WaterEntry>, meals: seq<MealEntry>, digestion: seq<DigestionEntry>)

  function WaterEntryOf(r: Water.WaterIntakeRecord): WaterEntry
  {
    WaterEntry(r.amount, r.created_at)
  }

  function MealEntryOf(r: Meal.ImageCheckRecord): MealEntry
  {
    MealEntry(r.created_at, r.nutritional_report)
  }

  function DigestionEntryOf(r: Digestion.DigestionRecord): DigestionEntry
  {
    var a := r.analysis;
    DigestionEntry(a.bristol_scale, r.created_at, Characteristics(a.color, a.consistency, a.has_blood, a.has_mucus))
  }

  /** The three `map`s that build `analysisData`: one entry per record, in record order. */
  function Payload(water: seq<Water.WaterIntakeRecord>, meals: seq<Meal.ImageCheckRecord>, digestion: seq<Digestion.DigestionRecord>)
    : (r: AnalysisData)
    ensures |r.water_intake| == |water| && |r.meals| == |meals| && |r.digestion| == |digestion|
    ensures forall i :: 0 <= i < |water| ==> r.water_intake[i] == WaterEntryOf(water[i])
    ensures forall i :: 0 <= i < |meals| ==> r.meals[i] == MealEntryOf(meals[i])
    ensures forall i :: 0 <= i < |digestion| ==> r.digestion[i] == DigestionEntryOf(digestion[i])
  {
    AnalysisData(Project(water, WaterEntryOf), Project(meals, MealEntryOf), Project(digestion, DigestionEntryOf))
  }

  /** The payload of two consecutive stretches of records is the first stretch's payload followed by the second's. */
  lemma PayloadAppend(w1: seq<Water.WaterIntakeRecord>, w2: seq<Water.WaterIntakeRecord>,
                      m1: seq<Meal.ImageCheckRecord>, m2: seq<Meal.ImageCheckRecord>,
                      d1: seq<Digestion.DigestionRecord>, d2: seq<Digestion.DigestionRecord>)
    ensures var p, p1, p2 := Payload(w1 + w2, m1 + m2, d1 + d2), Payload(w1, m1, d1), Payload(w2, m2, d2);
      && p.water_intake == p1.water_intake + p2.water_intake
      && p.meals == p1.meals + p2.meals
      && p.digestion == p1.digestion + p2.digestion
  {
    ProjectAppend(w1, w2, WaterEntryOf);
    ProjectAppend(m1, m2, MealEntryOf);
    ProjectAppend(d1, d2, DigestionEntryOf);
  }

  lemma ProjectAppend<T, V>(a: seq<T>, b: seq<T>, f: T -> V)
    ensures Project(a + b, f) == Project(a, f) + Project(b, f)
  {
    assert forall i :: 0 <= i < |a + b| ==> Project(a + b, f)[i] == (Project(a, f) + Project(b, f))[i];
  }

  /**
    `generateCorrelations` as written: the model's reply to the prompt rendered
    from the payload (`ask`), answered by `analyzeText`, inside the `try`.
  */
  function CorrelationsOf(water: seq<Water.WaterIntakeRecord>, meals: seq<Meal.ImageCheckRecord>,
                          digestion: seq<Digestion.DigestionRecord>,
                          ask: AnalysisData -> Result<string, string>,
                          parse: string -> Result<CorrelationAnalysisResult, string>)
    : Result<CorrelationAnalysisResult, string>
  {
    TryReturn(AnalyzeTextCall(ask(Payload(water, meals, digestion)), parse), Fallback)
  }

  /**
    The fallback is never substituted: the outcome is `analyzeText`'s own, so a
    rejected request or a reply without a fenced block rejects the whole call.
  */
  lemma CorrelationsHaveNoFallback(water: seq<Water.WaterIntakeRecord>, meals: seq<Meal.ImageCheckRecord>,
                                   digestion: seq<Digestion.DigestionRecord>,
                                   ask: AnalysisData -> Result<string, string>,
                                   parse: string -> Result<CorrelationAnalysisResult, string>)
    ensures var reply := ask(Payload(water, meals, digestion));
      && CorrelationsOf(water, meals, digestion, ask, parse) == Answer(reply, parse)
      && (reply.Failure? ==> CorrelationsOf(water, meals, digestion, ask, parse) == Failure(reply.error))
      && (reply.Success? && ExtractJson(reply.value).None? ==>
            CorrelationsOf(water, meals, digestion, ask, parse) == Failure(NoJsonError))
  {
    var reply := ask(Payload(water, meals, digestion));
    if reply.Success? && ExtractJson(reply.value).None? {
      ExtractJsonIsLeftmostMatch(reply.value);
    }
  }

  /** The fallback answers only a call that threw synchronously. */
  lemma FallbackOnlyOnThrow(call: Call<CorrelationAnalysisResult>)
    ensures TryReturn(call, Fallback) == Success(Fallback) <==> call.Threw? || call.promise == Success(Fallback)
  {
  }

  // ------------------------------------------------------------ service

  /** The service object; `modelName` is the model its constructor selects. */
  class AIService {
    const modelName: string

    constructor()
      ensures modelName == "gemini-2.0-flash"
    {
      modelName := "gemini-2.0-flash";
    }

    /** `analyzeImage`: the image and prompt go to the model, whose reply is `reply`. */
    method AnalyzeImage<T>(base64Image: string, prompt: string, reply: Result<string, string>,
                           parse: string -> Result<T, string>) returns (r: Result<T, string>)
      ensures r == Answer(reply, parse)
    {
      r := Decode(reply, parse);
    }

    /** `analyzeText`: the prompt goes to the model, whose reply is `reply`. */
    method AnalyzeText<T>(prompt: string, reply: Result<string, string>,
                          parse: string -> Result<T, string>) returns (r: Result<T, string>)
      ensures r == Answer(reply, parse)
    {
      r := Decode(reply, parse);
    }

    /** The extraction both analysers run on the reply text. */
    method Decode<T>(reply: Result<string, string>, parse: string -> Result<T, string>) returns (r: Result<T, string>)
      ensures r == Answer(reply, parse)
    {
      if reply.Failure? {
        return Failure(reply.error);
      }
      var text := reply.value;
      var start := FindFrom(text, Open, 0);
      if start.None? {
        return Failure(NoJsonError);
      }
      var end := FindFrom(text, Close, start.value + |Open|);
      if end.None? {
        return Failure(NoJsonError);
      }
      r := parse(text[start.value + |Open|..end.value]);
    }

    /** `generateCorrelations`: the payload, the model's reply to it, and the `try` around `analyzeText`. */
    method GenerateCorrelations(water: seq<Water.WaterIntakeRecord>, meals: seq<Meal.ImageCheckRecord>,
                                digestion: seq<Digestion.DigestionRecord>,
                                ask: AnalysisData -> Result<string, string>,
                                parse: string -> Result<CorrelationAnalysisResult, string>)
      returns (r: Result<CorrelationAnalysisResult, string>)
      ensures r == CorrelationsOf(water, meals, digestion, ask, parse)
    {
      var analysisData := Payload(water, meals, digestion);
      var call := Returned(Answer(ask(analysisData), parse));
      match call
      case Threw(_) => r := Success(Fallback);
      case Returned(p) => r := p;
    }
  }

  /** The static `AIService.instance` slot behind `getInstance`. */
  class Registry {
    var instance: AIService?

    constructor()
      ensures instance == null
    {
      instance := null;
    }

    /** `getInstance`: constructs the service on the first call and returns the stored one on every call. */
    method GetInstance() returns (service: AIService)
      modifies this
      ensures old(instance) != null ==> service == old(instance)
      ensures old(instance) == null ==> fresh(service)
      ensures instance == service
    {
      if instance == null {
        instance := new AIService();
      }
      service := instance;
    }
  }

  /** Two calls of `getInstance` return the same service. */
  method GetInstanceTwice(registry: Registry) returns (first: AIService, second: AIService)
    modifies registry
    ensures first == second && registry.instance == first
    ensures old(registry.instance) != null ==> first == old(registry.instance)
  {
    first := registry.GetInstance();
    second := registry.GetInstance();
  }
}
