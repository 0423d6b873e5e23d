/**
  The cloud functions: `fileCreated` turns an uploaded photo's path into a new
  record, the two `onDocumentCreated` handlers drive a record's `status`
  through a fixed sequence of field updates, and `generateWeeklySummaries`
  runs the weekly summary for every user.

  Storage, the AI service's answers and thrown errors are inputs: each handler
  receives the outcome of every step that can fail, and a record is a
  `Store.Document` whose updates are logged in order.
*/
module Index {
  import opened Wrappers
  import opened Types
  import opened Numbers
  import opened Store
  import User
  import AI
  import Water
  import Meal
  import Digestion
  import Folds

  // ------------------------------------------------------------- paths

  const Separator: char := '/'

  /** `path.split("/")`: the text between separators, empty pieces included. */
  function Split(s: string): (r: seq<string>)
    ensures |r| >= 1
    ensures forall i :: 0 <= i < |r| ==> Separator !in r[i]
  {
    if |s| == 0 then [""]
    else
      var rest := Split(s[1..]);
      if s[0] == Separator then [""] + rest
      else [[s[0]] + rest[0]] + rest[1..]
  }

  /** The segments put back together with separators, as the handlers' template strings do. */
  function Join(segments: seq<string>): string
    requires |segments| >= 1
  {
    if |segments| == 1 then segments[0]
    else segments[0] + [Separator] + Join(segments[1..])
  }

  /** Splitting and joining again gives back the path. */
  lemma {:induction false} JoinSplit(s: string)
    ensures Join(Split(s)) == s
  {
    if |s| > 0 {
      var rest := Split(s[1..]);
      JoinSplit(s[1..]);
      if s[0] == Separator {
        assert ([""] + rest)[1..] == rest;
      } else {
        JoinGlued(s[0], rest);
      }
      assert s == [s[0]] + s[1..];
    }
  }

  /** Gluing a character to the first segment puts it in front of the joined path. */
  lemma JoinGlued(c: char, segments: seq<string>)
    requires |segments| >= 1
    ensures Join([[c] + segments[0]] + segments[1..]) == [c] + Join(segments)
  {
    var glued := [[c] + segments[0]] + segments[1..];
    assert glued[0] == [c] + segments[0];
    if |segments| > 1 {
      var tail := Join(segments[1..]);
      assert glued[1..] == segments[1..];
      Reassociate([c], segments[0], [Separator]);
      Reassociate([c], segments[0] + [Separator], tail);
    }
  }

  /** Concatenation of text is associative. */
  lemma Reassociate(a: string, b: string, c: string)
    ensures (a + b) + c == a + (b + c)
  {
  }

  /** Joining separator-free segments and splitting again gives back the segments. */
  lemma {:induction false} SplitJoin(segments: seq<string>)
    requires |segments| >= 1
    requires forall i :: 0 <= i < |segments| ==> Separator !in segments[i]
    ensures Split(Join(segments)) == segments
  {
    if |segments| == 1 {
      SplitPlain(segments[0], "");
      assert segments[0] + "" == segments[0];
    } else {
      var tail := Join(segments[1..]);
      SplitJoin(segments[1..]);
      SplitAtSeparator(tail);
      SplitPlain(segments[0], [Separator] + tail);
      assert segments[0] + [Separator] + tail == segments[0] + ([Separator] + tail);
      assert segments[0] + "" == segments[0];
      assert segments == [segments[0]] + segments[1..];
    }
  }

  /** A separator starts a new, so far empty, segment. */
  lemma SplitAtSeparator(t: string)
    ensures Split([Separator] + t) == [""] + Split(t)
  {
    assert ([Separator] + t)[1..] == t;
  }

  /** Text without a separator is glued to the first segment of what follows it. */
  lemma {:induction false} SplitPlain(a: string, t: string)
    requires Separator !in a
    ensures Split(a + t) == [a + Split(t)[0]] + Split(t)[1..]
  {
    if |a| > 0 {
      SplitPlain(a[1..], t);
      var r := Split(t);
      var rest := Split(a[1..] + t);
      assert rest == [a[1..] + r[0]] + r[1..];
      assert (a + t)[0] == a[0] != Separator;
      assert (a + t)[1..] == a[1..] + t;
      assert Split(a + t) == [[a[0]] + rest[0]] + rest[1..];
      assert rest[0] == a[1..] + r[0] && rest[1..] == r[1..];
      assert [a[0]] + (a[1..] + r[0]) == a + r[0];
    } else {
      var r := Split(t);
      assert a + t == t && a + r[0] == r[0];
      assert r == [r[0]] + r[1..];
    }
  }

  // ------------------------------------------------------------- fileCreated

  /** The collection a new record of an upload type goes to. */
  function CollectionOf(t: ImageCheckType): (r: string)
    ensures r != ""
  {
    match t
    case Meals => "meal_records"
    case Digestions => "digestion_records"
    case Profile => "user_profiles"
  }

  /** A meal upload's record, waiting to be processed. */
  function MealRecordFields(userID: string, filename: string, now: Timestamp): Fields
  {
    map[
      UserID := Str(userID),
      Filename := Str(filename),
      Status := Str(ToBeProcessed.Name()),
      NutritionalReport := Null,
      CreatedAt := Time(now),
      Type := Str(Meals.Name())]
  }

  /** A digestion upload's record, marked as coming from the AI. */
  function DigestionRecordFields(userID: string, filename: string, now: Timestamp): Fields
  {
    map[
      UserID := Str(userID),
      Filename := Str(filename),
      Status := Str(ToBeProcessed.Name()),
      Analysis := Obj(map[Source := Str("ai")]),
      CreatedAt := Time(now),
      Type := Str(Digestions.Name())]
  }

  datatype NewRecord = NewRecord(collection: string, fields: Fields)

  /** The record for the segments of a non-empty path. */
  function RecordOfSegments(segments: seq<string>, now: Timestamp): Option<NewRecord>
  {
    if |segments| < 3 then None
    else
      match TypeFromName(segments[1])
      case None => None
      case Some(t) =>
        var userID, filename := segments[0], segments[2];
        if t == Digestions then Some(NewRecord(CollectionOf(t), DigestionRecordFields(userID, filename, now)))
        else if t == Meals then Some(NewRecord(CollectionOf(t), MealRecordFields(userID, filename, now)))
        else None
  }

  /**
    The record `fileCreated` adds for an uploaded file: none for an empty path,
    a path of fewer than three segments, an unknown type or a profile photo.
  */
  function RecordFor(filePath: string, now: Timestamp): (r: Option<NewRecord>)
    ensures r.Some? <==>
      filePath != "" && |Split(filePath)| >= 3 && Split(filePath)[1] in {"meals", "digestions"}
  {
    if filePath == "" then None else RecordOfSegments(Split(filePath), now)
  }

  /**
    For a path `userID/type/filename/...`: a meal or digestion upload creates
    its record from the first three segments, anything else creates nothing,
    and segments after the third make no difference.
  */
  lemma UploadRecord(segments: seq<string>, now: Timestamp)
    requires |segments| >= 3
    requires forall i :: 0 <= i < |segments| ==> Separator !in segments[i]
    ensures segments[1] == "meals" ==>
      RecordFor(Join(segments), now) == Some(NewRecord("meal_records", MealRecordFields(segments[0], segments[2], now)))
    ensures segments[1] == "digestions" ==>
      RecordFor(Join(segments), now) == Some(NewRecord("digestion_records", DigestionRecordFields(segments[0], segments[2], now)))
    ensures segments[1] != "meals" && segments[1] != "digestions" ==> RecordFor(Join(segments), now).None?
    ensures RecordFor(Join(segments), now) == RecordFor(Join(segments[..3]), now)
  {
    var first := segments[..3];
    assert forall i :: 0 <= i < |first| ==> Separator !in first[i] by {
      forall i | 0 <= i < |first| ensures Separator !in first[i] {
        assert first[i] == segments[i];
      }
    }
    RecordForJoin(segments, now);
    RecordForJoin(first, now);
    RecordOfFirstThree(segments, now);
    RecordOfSegmentsCases(segments, now);
  }

  /** The three outcomes for the segments of a path. */
  lemma RecordOfSegmentsCases(segments: seq<string>, now: Timestamp)
    requires |segments| >= 3
    ensures segments[1] == "meals" ==>
      RecordOfSegments(segments, now) == Some(NewRecord("meal_records", MealRecordFields(segments[0], segments[2], now)))
    ensures segments[1] == "digestions" ==>
      RecordOfSegments(segments, now) == Some(NewRecord("digestion_records", DigestionRecordFields(segments[0], segments[2], now)))
    ensures segments[1] != "meals" && segments[1] != "digestions" ==> RecordOfSegments(segments, now).None?
  {
  }

  /** The record for the path the segments join to is the record for the segments. */
  lemma RecordForJoin(segments: seq<string>, now: Timestamp)
    requires |segments| >= 2
    requires forall i :: 0 <= i < |segments| ==> Separator !in segments[i]
    ensures RecordFor(Join(segments), now) == RecordOfSegments(segments, now)
  {
    SplitJoin(segments);
    JoinNotEmpty(segments);
  }

  /** Only the first three segments matter. */
  lemma RecordOfFirstThree(segments: seq<string>, now: Timestamp)
    requires |segments| >= 3
    ensures RecordOfSegments(segments, now) == RecordOfSegments(segments[..3], now)
  {
    var first := segments[..3];
    assert first[0] == segments[0] && first[1] == segments[1] && first[2] == segments[2];
  }

  /** Two or more segments join to a path with a separator in it. */
  lemma JoinNotEmpty(segments: seq<string>)
    requires |segments| >= 2
    ensures Join(segments) != ""
  {
    assert |Join(segments)| >= 1;
  }

  /** `fileCreated`: add the new record, if any; a failing `add` is logged and swallowed. */
  method FileCreated(db: Collections, filePath: string, now: Timestamp, addFails: bool)
    modifies db
    ensures RecordFor(filePath, now).None? || addFails ==> db.docs == old(db.docs)
    ensures RecordFor(filePath, now).Some? && !addFails ==>
      var rec := RecordFor(filePath, now).value;
      db.docs == old(db.docs)[rec.collection := (if rec.collection in old(db.docs) then old(db.docs)[rec.collection] else []) + [rec.fields]]
  {
    if filePath == "" {
      return;
    }
    var segments := Split(filePath);
    if |segments| < 3 {
      return;
    }
    var userID, typeName, filename := segments[0], segments[1], segments[2];
    var t := TypeFromName(typeName);
    if t.None? {
      return;
    }
    var collection := CollectionOf(t.value);
    if addFails {
      return;
    }
    if t.value == Digestions {
      db.Add(collection, DigestionRecordFields(userID, filename, now));
    } else if t.value == Meals {
      db.Add(collection, MealRecordFields(userID, filename, now));
    }
  }

  // ------------------------------------------------------------- record updates

  /** An error caught by a handler: its message and, for the meal handler, its stack. */
  datatype Thrown = Thrown(message: string, preview: string)

  /** The text of a string field, as a template literal shows it; other values show as empty text. */
  function FieldText(fields: Fields, name: Name): string
  {
    if name in fields && fields[name].Str? then fields[name].s else ""
  }

  /** `{status: s}`. */
  function StatusWrite(s: string): Fields
  {
    map[Status := Str(s)]
  }

  /** The status stored by a write, if it writes one. */
  function StatusOf(fields: Fields): Option<string>
  {
    if Status in fields && fields[Status].Str? then Some(fields[Status].s) else None
  }

  // ------------------------------------------------------------- meal records

  /** What `onImageProcessingRecordCreated` meets along the way. */
  datatype MealIO = MealIO(
    fileExists: string -> Result<bool, Thrown>,
    download: Option<Thrown>,
    analysis: Result<Value, Thrown>,
    unlink: Option<Thrown>,
    now: Timestamp)

  /** The status the meal handler writes on an error; it is not a declared `ProcessingStatus`. */
  const MealErrorStatus: string := "error"

  /** The handler's check that the record names a file, a user and a type. */
  predicate MealRequired(fields: Fields)
  {
    Truthy(fields, Filename) && Truthy(fields, UserID) && Truthy(fields, Type)
  }

  /** `${userID}/${type}/${filename}`. */
  function MealPath(fields: Fields): string
  {
    Join([FieldText(fields, UserID), FieldText(fields, Type), FieldText(fields, Filename)])
  }

  function MealErrorWrite(e: Thrown): Fields
  {
    map[
      Status := Str(MealErrorStatus),
      ErrorDetails := Obj(map[Message := Str(e.message), ResponsePreview := Str(e.preview)])]
  }

  function MealProcessedWrite(report: Value, now: Timestamp): Fields
  {
    map[Status := Str(Processed.Name()), NutritionalReport := report, ProcessedAt := Time(now)]
  }

  /** How a run of the meal handler went. */
  datatype MealRun =
    | Skipped                                     // the record lacks a file name, a user or a type
    | Stuck                                       // the photo is not in storage
    | Errored(e: Thrown)                          // a step threw before the report was stored
    | Stored(report: Value)                       // the report was stored
    | StoredThenErrored(report: Value, e: Thrown) // removing the temporary file threw afterwards

  /** How the run goes after the record was marked "processing", given the answer to `file.exists()`. */
  function MealRunAfterCheck(found: Result<bool, Thrown>, io: MealIO): MealRun
  {
    match found
    case Failure(e) => Errored(e)
    case Success(present) =>
      if !present then Stuck
      else if io.download.Some? then Errored(io.download.value)
      else
        match io.analysis
        case Failure(e) => Errored(e)
        case Success(report) =>
          if io.unlink.Some? then StoredThenErrored(report, io.unlink.value) else Stored(report)
  }

  function MealRunOf(fields: Fields, io: MealIO): MealRun
  {
    if !MealRequired(fields) then Skipped else MealRunAfterCheck(io.fileExists(MealPath(fields)), io)
  }

  function MealRunWrites(run: MealRun, now: Timestamp): seq<Fields>
  {
    var processing := StatusWrite(Processing.Name());
    match run
    case Skipped => []
    case Stuck => [processing]
    case Errored(e) => [processing, MealErrorWrite(e)]
    case Stored(report) => [processing, MealProcessedWrite(report, now)]
    case StoredThenErrored(report, e) => [processing, MealProcessedWrite(report, now), MealErrorWrite(e)]
  }

  /** The updates `onImageProcessingRecordCreated` makes to a new meal record, in order. */
  function MealWrites(fields: Fields, io: MealIO): seq<Fields>
  {
    MealRunWrites(MealRunOf(fields, io), io.now)
  }

  /** `onImageProcessingRecordCreated`; a `null` document is an event without data. */
  method OnImageProcessingRecordCreated(doc: Document?, io: MealIO)
    modifies doc
    ensures doc != null ==> doc.writes == old(doc.writes) + MealWrites(old(doc.fields), io)
    ensures doc != null ==> doc.fields == AfterAll(old(doc.fields), MealWrites(old(doc.fields), io))
  {
    if doc == null {
      return;
    }
    if !MealRequired(doc.fields) {
      return;
    }
    var path := MealPath(doc.fields);
    ProcessMealPhoto(doc, path, io);
  }

  /** The steps after the check: mark "processing", look for the photo, analyse it and store the report. */
  method ProcessMealPhoto(doc: Document, path: string, io: MealIO)
    modifies doc
    ensures doc.writes == old(doc.writes) + MealRunWrites(MealRunAfterCheck(io.fileExists(path), io), io.now)
    ensures doc.fields == AfterAll(old(doc.fields), MealRunWrites(MealRunAfterCheck(io.fileExists(path), io), io.now))
  {
    ghost var before := doc.fields;
    var processing := StatusWrite(Processing.Name());
    doc.Update(processing);
    var found := io.fileExists(path);
    if found.Failure? {
      doc.Update(MealErrorWrite(found.error));
      AfterTwo(before, processing, MealErrorWrite(found.error));
      return;
    }
    if !found.value {
      AfterOne(before, processing);
      return;
    }
    if io.download.Some? {
      doc.Update(MealErrorWrite(io.download.value));
      AfterTwo(before, processing, MealErrorWrite(io.download.value));
      return;
    }
    if io.analysis.Failure? {
      doc.Update(MealErrorWrite(io.analysis.error));
      AfterTwo(before, processing, MealErrorWrite(io.analysis.error));
      return;
    }
    var processed := MealProcessedWrite(io.analysis.value, io.now);
    doc.Update(processed);
    if io.unlink.Some? {
      doc.Update(MealErrorWrite(io.unlink.value));
      AfterThree(before, processing, processed, MealErrorWrite(io.unlink.value));
    } else {
      AfterTwo(before, processing, processed);
    }
  }

  /** A meal record without a file name, a user or a type is left as it is. */
  lemma MealMissingDataUntouched(fields: Fields, io: MealIO)
    requires !Truthy(fields, Filename) || !Truthy(fields, UserID) || !Truthy(fields, Type)
    ensures MealWrites(fields, io) == []
    ensures AfterAll(fields, MealWrites(fields, io)) == fields
  {
  }

  /** When the photo is not in storage, the record is marked "processing" and stays so for good. */
  lemma MealStuckInProcessing(fields: Fields, io: MealIO)
    requires MealRequired(fields) && io.fileExists(MealPath(fields)) == Success(false)
    ensures MealWrites(fields, io) == [StatusWrite(Processing.Name())]
    ensures StatusOf(AfterAll(fields, MealWrites(fields, io))) == Some("processing")
  {
    AfterOne(fields, StatusWrite(Processing.Name()));
  }

  /** A run where nothing throws ends "processed", with the AI's report and the processing time. */
  lemma MealProcessed(fields: Fields, io: MealIO)
    requires MealRequired(fields) && io.fileExists(MealPath(fields)) == Success(true)
    requires io.download.None? && io.analysis.Success? && io.unlink.None?
    ensures var after := AfterAll(fields, MealWrites(fields, io));
      && StatusOf(after) == Some("processed")
      && NutritionalReport in after && after[NutritionalReport] == io.analysis.value
      && ProcessedAt in after && after[ProcessedAt] == Time(io.now)
  {
    assert MealRunOf(fields, io) == Stored(io.analysis.value);
    AfterTwo(fields, StatusWrite(Processing.Name()), MealProcessedWrite(io.analysis.value, io.now));
  }

  /**
    An error anywhere after the record was marked "processing", including
    removing the temporary file after the report was stored, ends in status
    "error", which is not a declared processing status, with the error's message.
  */
  lemma MealErrorEndsInError(fields: Fields, io: MealIO, e: Thrown)
    requires MealRequired(fields)
    requires || io.fileExists(MealPath(fields)) == Failure(e)
             || (io.fileExists(MealPath(fields)) == Success(true) && io.download == Some(e))
             || (io.fileExists(MealPath(fields)) == Success(true) && io.download.None? && io.analysis == Failure(e))
             || (io.fileExists(MealPath(fields)) == Success(true) && io.download.None? && io.analysis.Success?
                 && io.unlink == Some(e))
    ensures var after := AfterAll(fields, MealWrites(fields, io));
      && StatusOf(after) == Some(MealErrorStatus)
      && ErrorDetails in after
      && after[ErrorDetails] == Obj(map[Message := Str(e.message), ResponsePreview := Str(e.preview)])
    ensures StatusFromName(MealErrorStatus).None?
  {
    var processing := StatusWrite(Processing.Name());
    if MealRunOf(fields, io) == Errored(e) {
      AfterTwo(fields, processing, MealErrorWrite(e));
    } else {
      assert MealRunOf(fields, io) == StoredThenErrored(io.analysis.value, e);
      AfterThree(fields, processing, MealProcessedWrite(io.analysis.value, io.now), MealErrorWrite(e));
    }
  }

  /** A meal record that passes the check is first marked "processing", and ends "processing", "processed" or "error". */
  lemma MealFinalStatus(fields: Fields, io: MealIO)
    requires MealRequired(fields)
    ensures MealWrites(fields, io)[0] == StatusWrite(Processing.Name())
    ensures StatusOf(AfterAll(fields, MealWrites(fields, io))) in {Some("processing"), Some("processed"), Some(MealErrorStatus)}
  {
    MealRunFinalStatus(fields, MealRunOf(fields, io), io.now);
  }

  /** Every run but a skipped one starts with "processing" and ends "processing", "processed" or "error". */
  lemma MealRunFinalStatus(fields: Fields, run: MealRun, now: Timestamp)
    requires !run.Skipped?
    ensures MealRunWrites(run, now)[0] == StatusWrite(Processing.Name())
    ensures StatusOf(AfterAll(fields, MealRunWrites(run, now))) in {Some("processing"), Some("processed"), Some(MealErrorStatus)}
  {
    var processing := StatusWrite(Processing.Name());
    match run
    case Stuck =>
      AfterOne(fields, processing);
    case Errored(e) =>
      AfterTwo(fields, processing, MealErrorWrite(e));
    case Stored(report) =>
      AfterTwo(fields, processing, MealProcessedWrite(report, now));
    case StoredThenErrored(report, e) =>
      AfterThree(fields, processing, MealProcessedWrite(report, now), MealErrorWrite(e));
  }


  // ------------------------------------------------------------- digestion records

  /** The stool characteristics in an AI answer. */
  datatype StoolAnalysis = StoolAnalysis(
    color: string,
    consistency: string,
    shape: string,
    size: string,
    presence_of_blood: bool,
    presence_of_mucus: bool,
    bristol_stool_scale: nat)

  /** `DigestionAnalysisResult`, the AI's answer for a photo or for manually entered data. */
  datatype DigestionAnalysisResult = DigestionAnalysisResult(
    analysis: StoolAnalysis,
    concerns: seq<string>,
    recommendations: seq<string>,
    summary: string)

  /** What `onDigestionRecordCreated` meets along the way. */
  datatype DigestionIO = DigestionIO(
    manualAnswer: Result<DigestionAnalysisResult, Thrown>,
    fileExists: string -> Result<bool, Thrown>,
    download: Option<Thrown>,
    imageAnswer: Result<DigestionAnalysisResult, Thrown>,
    unlink: Option<Thrown>,
    now: Timestamp)

  /** Reading `data.analysis.source` throws when `analysis` is missing or null. */
  predicate AnalysisReadable(fields: Fields)
  {
    Analysis in fields && fields[Analysis] != Null
  }

  /** The record's `analysis`, `null` when it has none. */
  function AnalysisOf(fields: Fields): Value
  {
    if Analysis in fields then fields[Analysis] else Null
  }

  /** `data.analysis.source === "manual"`. */
  predicate IsManual(fields: Fields)
  {
    var a := AnalysisOf(fields);
    a.Obj? && Source in a.fields && a.fields[Source] == Str("manual")
  }

  /** `${userID}/digestions/${filename}`. */
  function DigestionPath(fields: Fields): string
  {
    Join([FieldText(fields, UserID), Digestions.Name(), FieldText(fields, Filename)])
  }

  function FailedWrite(message: string): Fields
  {
    map[Status := Str(Failed.Name()), ErrorDetails := Obj(map[Message := Str(message)])]
  }

  const FileMissing: string := "File does not exist"

  /** The fields of an object value that a spread copies; other values copy nothing. */
  function Spread(v: Value): Fields
  {
    if v.Obj? then v.fields else map[]
  }

  /** The fields the AI's answer sets in a record's analysis. */
  function ImageAnalysisFields(a: StoolAnalysis): Fields
  {
    map[
      BristolScale := Str(NatToString(a.bristol_stool_scale)),
      Color := Str(a.color),
      Consistency := Str(a.consistency),
      Shape := Str(a.shape),
      Size := Str(a.size),
      HasBlood := Bool(a.presence_of_blood),
      HasMucus := Bool(a.presence_of_mucus),
      Source := Str("ai")]
  }

  function ManualProcessedWrite(answer: DigestionAnalysisResult, now: Timestamp): Fields
  {
    map[
      Status := Str(Processed.Name()),
      ProcessedAt := Time(now),
      AiConcerns := Strings(answer.concerns),
      AiRecommendations := Strings(answer.recommendations)]
  }

  /** `{...analysis, ...}`: the record's analysis with the AI's characteristics written over it. */
  function MergedAnalysis(oldAnalysis: Value, a: StoolAnalysis): Fields
  {
    Spread(oldAnalysis) + ImageAnalysisFields(a)
  }

  /**
    The merged analysis holds the Bristol score as a string that reads back as
    the AI's number and the source "ai", and keeps every other field it had.
  */
  lemma MergedAnalysisKeeps(oldAnalysis: Value, a: StoolAnalysis)
    ensures var m := MergedAnalysis(oldAnalysis, a);
      && BristolScale in m && m[BristolScale] == Str(NatToString(a.bristol_stool_scale))
      && NumberOf(NatToString(a.bristol_stool_scale)) == Some(a.bristol_stool_scale as real)
      && Source in m && m[Source] == Str("ai")
      && (forall k :: k in Spread(oldAnalysis) && k !in ImageAnalysisFields(a) ==> k in m && m[k] == Spread(oldAnalysis)[k])
  {
    NatToStringRoundTrip(a.bristol_stool_scale);
  }

  function ImageProcessedWrite(oldAnalysis: Value, answer: DigestionAnalysisResult, now: Timestamp): Fields
  {
    map[
      Status := Str(Processed.Name()),
      ProcessedAt := Time(now),
      Analysis := Obj(MergedAnalysis(oldAnalysis, answer.analysis)),
      AiConcerns := Strings(answer.concerns),
      AiRecommendations := Strings(answer.recommendations)]
  }

  /** How a run of the digestion handler went. */
  datatype DigestionRun =
    | Crashed                                    // reading `analysis.source` threw
    | Untouched                                  // neither manual nor with a file name
    | ManualDone(answer: DigestionAnalysisResult)
    | FailedAtOnce(message: string)              // before any other update
    | FailedWhileProcessing(message: string)     // after the record was marked "processing"
    | ImageDone(answer: DigestionAnalysisResult)
    | ImageDoneThenFailed(answer: DigestionAnalysisResult, message: string)

  /** How the photo branch goes, given the answer to `file.exists()`. */
  function DigestionRunAfterCheck(found: Result<bool, Thrown>, io: DigestionIO): DigestionRun
  {
    match found
    case Failure(e) => FailedAtOnce(e.message)
    case Success(present) =>
      if !present then FailedAtOnce(FileMissing)
      else if io.download.Some? then FailedWhileProcessing(io.download.value.message)
      else
        match io.imageAnswer
        case Failure(e) => FailedWhileProcessing(e.message)
        case Success(answer) =>
          if io.unlink.Some? then ImageDoneThenFailed(answer, io.unlink.value.message) else ImageDone(answer)
  }

  function DigestionRunOf(fields: Fields, io: DigestionIO): DigestionRun
  {
    if !AnalysisReadable(fields) then Crashed
    else if IsManual(fields) then
      match io.manualAnswer
      case Success(answer) => ManualDone(answer)
      case Failure(e) => FailedAtOnce(e.message)
    else if Truthy(fields, Filename) then DigestionRunAfterCheck(io.fileExists(DigestionPath(fields)), io)
    else Untouched
  }

  function DigestionRunWrites(run: DigestionRun, oldAnalysis: Value, now: Timestamp): seq<Fields>
  {
    var processing := StatusWrite(Processing.Name());
    match run
    case Crashed => []
    case Untouched => []
    case ManualDone(answer) => [ManualProcessedWrite(answer, now)]
    case FailedAtOnce(message) => [FailedWrite(message)]
    case FailedWhileProcessing(message) => [processing, FailedWrite(message)]
    case ImageDone(answer) => [processing, ImageProcessedWrite(oldAnalysis, answer, now)]
    case ImageDoneThenFailed(answer, message) =>
      [processing, ImageProcessedWrite(oldAnalysis, answer, now), FailedWrite(message)]
  }

  /** The updates `onDigestionRecordCreated` makes to a new digestion record, in order. */
  function DigestionWrites(fields: Fields, io: DigestionIO): seq<Fields>
  {
    DigestionRunWrites(DigestionRunOf(fields, io), AnalysisOf(fields), io.now)
  }

  /** `onDigestionRecordCreated`; a `null` document is an event without data. */
  method OnDigestionRecordCreated(doc: Document?, io: DigestionIO)
    modifies doc
    ensures doc != null ==> doc.writes == old(doc.writes) + DigestionWrites(old(doc.fields), io)
    ensures doc != null ==> doc.fields == AfterAll(old(doc.fields), DigestionWrites(old(doc.fields), io))
  {
    if doc == null {
      return;
    }
    ghost var before := doc.fields;
    if !AnalysisReadable(doc.fields) {
    } else if IsManual(doc.fields) {
      var write;
      if io.manualAnswer.Success? {
        write := ManualProcessedWrite(io.manualAnswer.value, io.now);
      } else {
        write := FailedWrite(io.manualAnswer.error.message);
      }
      doc.Update(write);
      AfterOne(before, write);
    } else if Truthy(doc.fields, Filename) {
      var analysis := doc.fields[Analysis];
      var path := DigestionPath(doc.fields);
      ProcessDigestionPhoto(doc, analysis, path, io);
    } else {
    }
  }

  /** The photo branch: look for the file, then go on with it if it is there. */
  method ProcessDigestionPhoto(doc: Document, analysis: Value, path: string, io: DigestionIO)
    modifies doc
    ensures doc.writes == old(doc.writes) + DigestionRunWrites(DigestionRunAfterCheck(io.fileExists(path), io), analysis, io.now)
    ensures doc.fields == AfterAll(old(doc.fields), DigestionRunWrites(DigestionRunAfterCheck(io.fileExists(path), io), analysis, io.now))
  {
    ghost var before := doc.fields;
    var found := io.fileExists(path);
    if found.Failure? {
      doc.Update(FailedWrite(found.error.message));
      AfterOne(before, FailedWrite(found.error.message));
    } else if !found.value {
      doc.Update(FailedWrite(FileMissing));
      AfterOne(before, FailedWrite(FileMissing));
    } else {
      AnalyzeDigestionPhoto(doc, analysis, io);
    }
  }

  /** The photo is there: mark "processing", analyse it and store the AI's answer. */
  method AnalyzeDigestionPhoto(doc: Document, analysis: Value, io: DigestionIO)
    modifies doc
    ensures doc.writes == old(doc.writes) + DigestionRunWrites(DigestionRunAfterCheck(Success(true), io), analysis, io.now)
    ensures doc.fields == AfterAll(old(doc.fields), DigestionRunWrites(DigestionRunAfterCheck(Success(true), io), analysis, io.now))
  {
    ghost var before := doc.fields;
    var processing := StatusWrite(Processing.Name());
    doc.Update(processing);
    if io.download.Some? {
      doc.Update(FailedWrite(io.download.value.message));
      AfterTwo(before, processing, FailedWrite(io.download.value.message));
      return;
    }
    if io.imageAnswer.Failure? {
      doc.Update(FailedWrite(io.imageAnswer.error.message));
      AfterTwo(before, processing, FailedWrite(io.imageAnswer.error.message));
      return;
    }
    var processed := ImageProcessedWrite(analysis, io.imageAnswer.value, io.now);
    doc.Update(processed);
    if io.unlink.Some? {
      doc.Update(FailedWrite(io.unlink.value.message));
      AfterThree(before, processing, processed, FailedWrite(io.unlink.value.message));
    } else {
      AfterTwo(before, processing, processed);
    }
  }

  /** A record whose analysis is missing or null makes the handler throw before it writes anything. */
  lemma DigestionCrashWritesNothing(fields: Fields, io: DigestionIO)
    requires Analysis !in fields || fields[Analysis] == Null
    ensures DigestionWrites(fields, io) == []
  {
  }

  /**
    A manual record ends "processed" with the AI's concerns and recommendations,
    or "failed" with the error's message; either way its analysis is untouched.
  */
  lemma ManualRecordOutcome(fields: Fields, io: DigestionIO)
    requires AnalysisReadable(fields) && IsManual(fields)
    ensures var after := AfterAll(fields, DigestionWrites(fields, io));
      && Analysis in after && after[Analysis] == fields[Analysis]
      && match io.manualAnswer
         case Success(answer) =>
           && StatusOf(after) == Some("processed")
           && AiConcerns in after && after[AiConcerns] == Strings(answer.concerns)
           && AiRecommendations in after && after[AiRecommendations] == Strings(answer.recommendations)
         case Failure(e) =>
           && StatusOf(after) == Some("failed")
           && ErrorDetails in after && after[ErrorDetails] == Obj(map[Message := Str(e.message)])
  {
    match io.manualAnswer
    case Success(answer) =>
      AfterOne(fields, ManualProcessedWrite(answer, io.now));
    case Failure(e) =>
      AfterOne(fields, FailedWrite(e.message));
  }

  /** A photo record whose file is missing goes straight to "failed" with "File does not exist", never through "processing". */
  lemma MissingPhotoFails(fields: Fields, io: DigestionIO)
    requires AnalysisReadable(fields) && !IsManual(fields) && Truthy(fields, Filename)
    requires io.fileExists(DigestionPath(fields)) == Success(false)
    ensures DigestionWrites(fields, io) == [FailedWrite(FileMissing)]
    ensures StatusOf(AfterAll(fields, DigestionWrites(fields, io))) == Some("failed")
    ensures var after := AfterAll(fields, DigestionWrites(fields, io));
      Analysis in after && after[Analysis] == fields[Analysis]
  {
    AfterOne(fields, FailedWrite(FileMissing));
  }

  /**
    A photo record analysed without error ends "processed", with the AI's
    characteristics merged into its analysis (see `MergedAnalysisKeeps`).
  */
  lemma PhotoRecordProcessed(fields: Fields, io: DigestionIO)
    requires AnalysisReadable(fields) && !IsManual(fields) && Truthy(fields, Filename)
    requires io.fileExists(DigestionPath(fields)) == Success(true)
    requires io.download.None? && io.imageAnswer.Success? && io.unlink.None?
    ensures var after := AfterAll(fields, DigestionWrites(fields, io));
      && StatusOf(after) == Some("processed")
      && Analysis in after && after[Analysis] == Obj(MergedAnalysis(fields[Analysis], io.imageAnswer.value.analysis))
  {
    var answer := io.imageAnswer.value;
    assert DigestionRunOf(fields, io) == ImageDone(answer);
    AfterTwo(fields, StatusWrite(Processing.Name()), ImageProcessedWrite(AnalysisOf(fields), answer, io.now));
  }


  /** A record that is neither manual nor names a file is left as it is. */
  lemma NeitherManualNorPhotoUntouched(fields: Fields, io: DigestionIO)
    requires AnalysisReadable(fields) && !IsManual(fields) && !Truthy(fields, Filename)
    ensures DigestionWrites(fields, io) == []
  {
  }

  /** Unlike the meal handler, every status the digestion handler writes is a declared processing status. */
  lemma DigestionStatusesDeclared(fields: Fields, io: DigestionIO)
    ensures forall w | w in DigestionWrites(fields, io) && StatusOf(w).Some? :: StatusFromName(StatusOf(w).value).Some?
  {
  }

  // ------------------------------------------------------------- from upload to handler

  /**
    A meal record made by `fileCreated` is processed exactly when its user and
    file name are not empty, and the handler then looks for the file at
    `userID/meals/filename`, the path of an upload with three segments.
  */
  lemma UploadedMealChecked(userID: string, filename: string, now: Timestamp)
    ensures MealRequired(MealRecordFields(userID, filename, now)) <==> userID != "" && filename != ""
    ensures MealPath(MealRecordFields(userID, filename, now)) == Join([userID, Meals.Name(), filename])
  {
  }

  /**
    A digestion record made by `fileCreated` comes from the AI, so the handler
    takes the photo branch exactly when its file name is not empty, and looks
    for the file at `userID/digestions/filename`.
  */
  lemma UploadedDigestionChecked(userID: string, filename: string, now: Timestamp)
    ensures AnalysisReadable(DigestionRecordFields(userID, filename, now))
    ensures !IsManual(DigestionRecordFields(userID, filename, now))
    ensures Truthy(DigestionRecordFields(userID, filename, now), Filename) <==> filename != ""
    ensures DigestionPath(DigestionRecordFields(userID, filename, now)) == Join([userID, Digestions.Name(), filename])
    ensures var analysis := DigestionRecordFields(userID, filename, now)[Analysis];
      analysis.Obj? && BristolScale !in analysis.fields
  {
  }

  // ------------------------------------------------------------- generateWeeklySummaries

  /** Seven days in milliseconds: the length of the window the schedule summarizes. */
  const WeekMillis: int := 7 * 24 * 60 * 60 * 1000

  /** The goals collection after the summaries for `users` ran in order; each may write default goals. */
  function GoalsAfterUsers(goals: map<string, UserGoals>, users: seq<string>, env: User.Environment)
    : map<string, UserGoals>
  {
    if |users| == 0 then goals
    else
      var u := users[|users| - 1];
      User.GoalsAfter(GoalsAfterUsers(goals, users[..|users| - 1], env), u, env.goalsError(u), env.loadedAt)
  }

  /** What `generateUserWeeklySummary` comes to for a user, given the goals collection at that point. */
  type Step = (map<string, UserGoals>, string) -> Result<WeeklySummary, string>

  /** The users' outcomes in order: each user's step sees the goals the users before it left behind. */
  function OutcomesWith(goals: map<string, UserGoals>, users: seq<string>, env: User.Environment, step: Step)
    : (r: seq<Result<WeeklySummary, string>>)
    ensures |r| == |users|
  {
    if |users| == 0 then []
    else
      var earlier := users[..|users| - 1];
      OutcomesWith(goals, earlier, env, step) + [step(GoalsAfterUsers(goals, earlier, env), users[|users| - 1])]
  }

  /** The weekly summary of the records in the store, for the window from `start` to `end`. */
  function SummaryStep(water: seq<Water.WaterIntakeRecord>, meals: seq<Meal.ImageCheckRecord>,
                       digestions: seq<Digestion.DigestionRecord>, start: Timestamp, end: Timestamp,
                       env: User.Environment): Step
  {
    (g: map<string, UserGoals>, u: string) => User.SummaryOutcome(water, meals, digestions, g, u, start, end, end, env)
  }

  /** What each user's summary comes to, in order. */
  function Outcomes(water: seq<Water.WaterIntakeRecord>, meals: seq<Meal.ImageCheckRecord>,
                    digestions: seq<Digestion.DigestionRecord>, goals: map<string, UserGoals>,
                    users: seq<string>, start: Timestamp, end: Timestamp, env: User.Environment)
    : seq<Result<WeeklySummary, string>>
  {
    OutcomesWith(goals, users, env, SummaryStep(water, meals, digestions, start, end, env))
  }

  /** The summaries among the outcomes, in order. */
  function Successes(outcomes: seq<Result<WeeklySummary, string>>): seq<WeeklySummary>
  {
    if |outcomes| == 0 then []
    else
      var last := outcomes[|outcomes| - 1];
      Successes(outcomes[..|outcomes| - 1]) + (if last.Success? then [last.value] else [])
  }

  /** The users `generateWeeklySummaries` goes through: none when listing them fails. */
  function ListedUsers(listed: Result<seq<string>, string>): seq<string>
  {
    if listed.Success? then listed.value else []
  }

  /**
    `generateWeeklySummaries`: summarize the past week for every user, one
    after the other; an error for one user is logged and the next user is
    tried, and an error listing the users ends the run with nothing done.
  */
  method GenerateWeeklySummaries(db: User.Database, registry: AI.Registry, listed: Result<seq<string>, string>,
                                 now: Timestamp, env: User.Environment)
    returns (outcomes: seq<Result<WeeklySummary, string>>)
    modifies db, registry
    ensures outcomes == Outcomes(old(db.water), old(db.meals), old(db.digestions), old(db.goals),
                                 ListedUsers(listed), now - WeekMillis, now, env)
    ensures db.goals == GoalsAfterUsers(old(db.goals), ListedUsers(listed), env)
    ensures db.summaries == old(db.summaries) + Successes(outcomes)
    ensures db.water == old(db.water) && db.meals == old(db.meals) && db.digestions == old(db.digestions)
  {
    var users := ListedUsers(listed);
    var lastWeek := now - WeekMillis;
    outcomes := [];
    var i := 0;
    while i < |users|
      invariant 0 <= i <= |users|
      invariant db.water == old(db.water) && db.meals == old(db.meals) && db.digestions == old(db.digestions)
      invariant db.goals == GoalsAfterUsers(old(db.goals), users[..i], env)
      invariant outcomes == Outcomes(db.water, db.meals, db.digestions, old(db.goals), users[..i], lastWeek, now, env)
      invariant db.summaries == old(db.summaries) + Successes(outcomes)
    {
      ghost var step := SummaryStep(db.water, db.meals, db.digestions, lastWeek, now, env);
      outcomes := SummarizeNext(db, registry, users, i, lastWeek, now, env, old(db.goals), old(db.summaries), step, outcomes);
      i := i + 1;
    }
    assert users[..|users|] == users;
  }

  /** One turn of the loop: summarize `users[i]`, catching what it throws. */
  method SummarizeNext(db: User.Database, registry: AI.Registry, users: seq<string>, i: nat,
                       start: Timestamp, now: Timestamp, env: User.Environment,
                       ghost goals: map<string, UserGoals>, ghost summaries: seq<WeeklySummary>,
                       ghost step: Step, outcomes: seq<Result<WeeklySummary, string>>)
    returns (outcomes': seq<Result<WeeklySummary, string>>)
    requires i < |users|
    requires step(db.goals, users[i])
      == User.SummaryOutcome(db.water, db.meals, db.digestions, db.goals, users[i], start, now, now, env)
    requires db.goals == GoalsAfterUsers(goals, users[..i], env)
    requires outcomes == OutcomesWith(goals, users[..i], env, step)
    requires db.summaries == summaries + Successes(outcomes)
    modifies db, registry
    ensures db.water == old(db.water) && db.meals == old(db.meals) && db.digestions == old(db.digestions)
    ensures db.goals == GoalsAfterUsers(goals, users[..i + 1], env)
    ensures outcomes' == OutcomesWith(goals, users[..i + 1], env, step)
    ensures db.summaries == summaries + Successes(outcomes')
  {
    OutcomesStep(goals, users, i, env, step);
    var r := db.GenerateUserWeeklySummary(users[i], start, now, now, env, registry);
    outcomes' := outcomes + [r];
    SuccessesStep(outcomes, r);
  }

  /** The first i + 1 users: the first i, then the i-th against the goals they left. */
  lemma OutcomesStep(goals: map<string, UserGoals>, users: seq<string>, i: nat, env: User.Environment, step: Step)
    requires i < |users|
    ensures GoalsAfterUsers(goals, users[..i + 1], env)
      == User.GoalsAfter(GoalsAfterUsers(goals, users[..i], env), users[i], env.goalsError(users[i]), env.loadedAt)
    ensures OutcomesWith(goals, users[..i + 1], env, step)
      == OutcomesWith(goals, users[..i], env, step) + [step(GoalsAfterUsers(goals, users[..i], env), users[i])]
  {
    assert users[..i + 1][..i] == users[..i];
  }

  /** One more outcome adds its summary, if it has one. */
  lemma SuccessesStep(outcomes: seq<Result<WeeklySummary, string>>, r: Result<WeeklySummary, string>)
    ensures Successes(outcomes + [r]) == Successes(outcomes) + (if r.Success? then [r.value] else [])
  {
    assert (outcomes + [r])[..|outcomes|] == outcomes;
  }

  /** The i-th outcome is the i-th user's step against the goals the earlier users left. */
  lemma {:induction false} OutcomeOfUser(goals: map<string, UserGoals>, users: seq<string>, i: nat,
                                         env: User.Environment, step: Step)
    requires i < |users|
    ensures OutcomesWith(goals, users, env, step)[i] == step(GoalsAfterUsers(goals, users[..i], env), users[i])
  {
    var earlier := users[..|users| - 1];
    if i < |users| - 1 {
      OutcomeOfUser(goals, earlier, i, env, step);
      assert earlier[..i] == users[..i];
    }
  }

  /** In particular the i-th user's summary is `generateUserWeeklySummary` against those goals. */
  lemma UserSummaryOutcome(water: seq<Water.WaterIntakeRecord>, meals: seq<Meal.ImageCheckRecord>,
                           digestions: seq<Digestion.DigestionRecord>, goals: map<string, UserGoals>,
                           users: seq<string>, i: nat, start: Timestamp, end: Timestamp, env: User.Environment)
    requires i < |users|
    ensures Outcomes(water, meals, digestions, goals, users, start, end, env)[i]
      == User.SummaryOutcome(water, meals, digestions, GoalsAfterUsers(goals, users[..i], env), users[i], start, end, end, env)
  {
    OutcomeOfUser(goals, users, i, env, SummaryStep(water, meals, digestions, start, end, env));
  }

  /**
    The goals the run leaves: stored goals stay as they were, every user whose
    goals could be read has goals afterwards, and no one else gains any.
  */
  lemma {:induction false} GoalsAfterUsersKeys(goals: map<string, UserGoals>, users: seq<string>, env: User.Environment)
    ensures forall u :: u in goals ==> u in GoalsAfterUsers(goals, users, env) && GoalsAfterUsers(goals, users, env)[u] == goals[u]
    ensures forall i :: 0 <= i < |users| && env.goalsError(users[i]).None? ==> users[i] in GoalsAfterUsers(goals, users, env)
    ensures forall u :: u in GoalsAfterUsers(goals, users, env) ==> u in goals || u in users
  {
    if |users| > 0 {
      var earlier := users[..|users| - 1];
      GoalsAfterUsersKeys(goals, earlier, env);
      assert forall i :: 0 <= i < |earlier| ==> earlier[i] == users[i];
      assert forall u :: u in earlier ==> u in users;
    }
  }

  /**
    When every step's summary belongs to its user and the window, so does
    every summary among the outcomes; when no user is listed twice, no two
    summaries belong to the same user.
  */
  lemma {:induction false} StoredSummariesWith(goals: map<string, UserGoals>, users: seq<string>, env: User.Environment,
                                               step: Step, start: Timestamp, end: Timestamp)
    requires forall g, u :: step(g, u).Success? ==>
      step(g, u).value.userID == u && step(g, u).value.weekStartDate == start && step(g, u).value.weekEndDate == end
    ensures var stored := Successes(OutcomesWith(goals, users, env, step));
      && |stored| <= |users|
      && (forall k :: 0 <= k < |stored| ==>
           stored[k].userID in users && stored[k].weekStartDate == start && stored[k].weekEndDate == end)
      && (Folds.Distinct(users) ==> forall k, l :: 0 <= k < l < |stored| ==> stored[k].userID != stored[l].userID)
  {
    if |users| > 0 {
      var earlier := users[..|users| - 1];
      StoredSummariesWith(goals, earlier, env, step, start, end);
      var rs := OutcomesWith(goals, users, env, step);
      assert rs[..|rs| - 1] == OutcomesWith(goals, earlier, env, step);
      assert forall v :: v in earlier ==> v in users;
      if Folds.Distinct(users) {
        assert Folds.Distinct(earlier);
        assert users[|users| - 1] !in earlier;
      }
    }
  }

  /**
    When no user is listed twice, a user whose step fails has no summary among
    the outcomes.
  */
  lemma {:induction false} FailedUserStoresNothing(goals: map<string, UserGoals>, users: seq<string>, env: User.Environment,
                                                   step: Step, start: Timestamp, end: Timestamp, i: nat)
    requires forall g, u :: step(g, u).Success? ==>
      step(g, u).value.userID == u && step(g, u).value.weekStartDate == start && step(g, u).value.weekEndDate == end
    requires Folds.Distinct(users)
    requires i < |users| && OutcomesWith(goals, users, env, step)[i].Failure?
    ensures forall k :: 0 <= k < |Successes(OutcomesWith(goals, users, env, step))| ==>
      Successes(OutcomesWith(goals, users, env, step))[k].userID != users[i]
  {
    var earlier := users[..|users| - 1];
    var rs := OutcomesWith(goals, users, env, step);
    assert rs[..|rs| - 1] == OutcomesWith(goals, earlier, env, step);
    assert Folds.Distinct(earlier);
    if i == |users| - 1 {
      StoredSummariesWith(goals, earlier, env, step, start, end);
      assert users[i] !in earlier;
    } else {
      FailedUserStoresNothing(goals, earlier, env, step, start, end, i);
      assert users[|users| - 1] != users[i];
    }
  }

  /**
    Every summary the run stores belongs to a listed user and covers the window
    it was asked for; when no user is listed twice, there is at most one per user.
  */
  lemma SummariesOfListedUsers(water: seq<Water.WaterIntakeRecord>, meals: seq<Meal.ImageCheckRecord>,
                               digestions: seq<Digestion.DigestionRecord>, goals: map<string, UserGoals>,
                               users: seq<string>, start: Timestamp, end: Timestamp, env: User.Environment)
    ensures var stored := Successes(Outcomes(water, meals, digestions, goals, users, start, end, env));
      && |stored| <= |users|
      && (forall k :: 0 <= k < |stored| ==>
           stored[k].userID in users && stored[k].weekStartDate == start && stored[k].weekEndDate == end)
      && (Folds.Distinct(users) ==> forall k, l :: 0 <= k < l < |stored| ==> stored[k].userID != stored[l].userID)
  {
    SummaryStepFacts(water, meals, digestions, start, end, env);
    StoredSummariesWith(goals, users, env, SummaryStep(water, meals, digestions, start, end, env), start, end);
  }

  /** Every summary `generateUserWeeklySummary` produces belongs to the user and the window asked for. */
  lemma SummaryStepFacts(water: seq<Water.WaterIntakeRecord>, meals: seq<Meal.ImageCheckRecord>,
                         digestions: seq<Digestion.DigestionRecord>, start: Timestamp, end: Timestamp, env: User.Environment)
    ensures var step := SummaryStep(water, meals, digestions, start, end, env);
      forall g, u :: step(g, u).Success? ==>
        step(g, u).value.userID == u && step(g, u).value.weekStartDate == start && step(g, u).value.weekEndDate == end
  {
    var step := SummaryStep(water, meals, digestions, start, end, env);
    forall g, u | step(g, u).Success?
      ensures step(g, u).value.userID == u && step(g, u).value.weekStartDate == start && step(g, u).value.weekEndDate == end
    {
      User.SummaryComposition(water, meals, digestions, g, u, start, end, end, env);
    }
  }

  /**
    A digestion record of the week still without a Bristol scale (an upload not
    analysed yet, or whose analysis failed) makes the user's summary throw with
    the `TypeError`, and, when no user is listed twice, the run stores no
    summary for that user.
  */
  lemma UnscaledRecordSkipsUser(water: seq<Water.WaterIntakeRecord>, meals: seq<Meal.ImageCheckRecord>,
                                digestions: seq<Digestion.DigestionRecord>, goals: map<string, UserGoals>,
                                users: seq<string>, start: Timestamp, end: Timestamp, env: User.Environment,
                                i: nat, j: nat)
    requires i < |users| && env.goalsError(users[i]).None?
    requires j < |digestions| && digestions[j].userID == users[i] && InWindow(digestions[j].created_at, start, end)
    requires digestions[j].analysis.bristol_scale.None?
    ensures Outcomes(water, meals, digestions, goals, users, start, end, env)[i] == Failure(Digestion.ScaleMissingError)
    ensures var stored := Successes(Outcomes(water, meals, digestions, goals, users, start, end, env));
      Folds.Distinct(users) ==> forall k :: 0 <= k < |stored| ==> stored[k].userID != users[i]
  {
    var g := GoalsAfterUsers(goals, users[..i], env);
    UserSummaryOutcome(water, meals, digestions, goals, users, i, start, end, env);
    var week := Digestion.FetchDigestionRecords(digestions, users[i], start, end);
    assert digestions[j] in week;
    assert !Digestion.AllScaled(week) by {
      var n :| 0 <= n < |week| && week[n] == digestions[j];
      assert !Digestion.Scaled(week[n]);
    }
    User.SummaryFailures(water, meals, digestions, g, users[i], start, end, end, env);
    if Folds.Distinct(users) {
      SummaryStepFacts(water, meals, digestions, start, end, env);
      FailedUserStoresNothing(goals, users, env, SummaryStep(water, meals, digestions, start, end, env), start, end, i);
    }
  }
}
