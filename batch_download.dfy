/** The Collect stage: for every `submitted` batch, ask the batch service
    whether the job has finished; if it has, download its result lines,
    store one horoscope per usable line, and record `completed` or
    `failed` in the control file. */
module BatchDownload {
  import opened Values
  import opened ControlFile

  const HOROSCOPE_PREFIX: string := "horoscope"

  /** Job states reported by the batch service that end the wait. */
  const BATCH_STATUS_COMPLETED: string := "completed"
  const BATCH_STATUS_FAILED: string := "failed"

  // ---- Python string operations used on result lines ----

  /** `str.isspace` for one character. */
  predicate IsSpace(c: char) {
    || c == ' ' || ('\t' <= c <= '\r') || ('\U{1C}' <= c <= '\U{1F}')
    || c == '\U{85}' || c == '\U{A0}' || c == '\U{1680}'
    || ('\U{2000}' <= c <= '\U{200A}') || c == '\U{2028}' || c == '\U{2029}'
    || c == '\U{202F}' || c == '\U{205F}' || c == '\U{3000}'
  }

  function StripStart(s: string): string {
    if s != [] && IsSpace(s[0]) then StripStart(s[1..]) else s
  }

  function StripEnd(s: string): string {
    if s != [] && IsSpace(s[|s| - 1]) then StripEnd(s[..|s| - 1]) else s
  }

  /** `s.strip()` */
  function Strip(s: string): string {
    StripEnd(StripStart(s))
  }

  /** `str.lower` on one character (ASCII letters only). */
  function LowerChar(c: char): char {
    if 'A' <= c <= 'Z' then (c as int - 'A' as int + 'a' as int) as char else c
  }

  /** `s.lower()` */
  function Lower(s: string): string {
    seq(|s|, i requires 0 <= i < |s| => LowerChar(s[i]))
  }

  /** `s.replace(" ", "_")` */
  function ReplaceSpaces(s: string): string {
    seq(|s|, i requires 0 <= i < |s| => if s[i] == ' ' then '_' else s[i])
  }

  /** `strip` removes whitespace only at the two ends: the result is a
      slice of the input with no whitespace at either end, and everything
      cut off is whitespace. */
  lemma {:induction false} StripIsTrim(s: string)
    ensures var r := Strip(s);
      exists i, j :: 0 <= i <= j <= |s| && r == s[i..j] &&
        (forall k :: 0 <= k < i ==> IsSpace(s[k])) && (forall k :: j <= k < |s| ==> IsSpace(s[k]))
    ensures Strip(s) != [] ==> !IsSpace(Strip(s)[0]) && !IsSpace(Strip(s)[|Strip(s)| - 1])
  {
    var i := StripStartAt(s);
    var t := s[i..];
    var j := StripEndAt(t);
    assert Strip(s) == s[i..i + j];
    assert forall k :: i + j <= k < |s| ==> s[k] == t[k - i];
  }

  lemma {:induction false} StripStartAt(s: string) returns (i: nat)
    ensures i <= |s| && StripStart(s) == s[i..]
    ensures forall k :: 0 <= k < i ==> IsSpace(s[k])
    ensures StripStart(s) != [] ==> !IsSpace(StripStart(s)[0])
  {
    if s != [] && IsSpace(s[0]) {
      var i' := StripStartAt(s[1..]);
      i := i' + 1;
      assert s[1..][i'..] == s[i..];
      forall k | 0 < k < i ensures IsSpace(s[k]) {
        assert s[k] == s[1..][k - 1];
      }
    } else {
      i := 0;
    }
  }

  lemma {:induction false} StripEndAt(s: string) returns (j: nat)
    ensures j <= |s| && StripEnd(s) == s[..j]
    ensures forall k :: j <= k < |s| ==> IsSpace(s[k])
    ensures StripEnd(s) != [] ==> !IsSpace(StripEnd(s)[|StripEnd(s)| - 1])
  {
    if s != [] && IsSpace(s[|s| - 1]) {
      j := StripEndAt(s[..|s| - 1]);
      assert s[..|s| - 1][..j] == s[..j];
    } else {
      j := |s|;
    }
  }

  lemma LowerConcat(a: string, b: string)
    ensures Lower(a + b) == Lower(a) + Lower(b)
  {
  }

  lemma LowerIdempotent(s: string)
    ensures Lower(Lower(s)) == Lower(s)
  {
  }

  // ---- one result line ----

  /** The first choice's `message.content`, for a truthy `choices`: only a
      non-empty list can be indexed by 0 (a dict raises KeyError, a string
      yields a string without `.get`, a number or boolean is not
      subscriptable). */
  function FirstChoiceContent(choices: Json): Result<Json>
    requires Truthy(choices)
  {
    match choices
    case JArr(xs) =>
      var first := xs[0];
      if !first.JObj? then Err("AttributeError")
      else
        var message := GetOr(first.fields, "message", JObj(map[]));
        if !message.JObj? then Err("AttributeError")
        else Ok(GetOr(message.fields, "content", JStr("")))
    case JObj(_) => Err("KeyError")
    case JStr(_) => Err("AttributeError")
    case _ => Err("TypeError")
  }

  /** The horoscope a decoded result line carries: the name from
      `custom_id` and the stripped content; None when the content is
      missing or empty (the line is skipped); an exception when the line
      does not have the shape the code walks. */
  function ExtractHoroscope(item: Json): Result<Option<(string, string)>> {
    if !item.JObj? then Err("AttributeError")
    else
      var customId := GetOr(item.fields, "custom_id", JStr("unknown"));
      if !customId.JStr? then Err("AttributeError")
      else
        var name := ReplaceSpaces(customId.s);
        var response := GetOr(item.fields, "response", JObj(map[]));
        if !response.JObj? then Err("AttributeError")
        else
          var body := GetOr(response.fields, "body", JObj(map[]));
          if !body.JObj? then Err("AttributeError")
          else
            var choices := GetOr(body.fields, "choices", JArr([JObj(map[])]));
            var output := if Truthy(choices) then FirstChoiceContent(choices) else Ok(JStr(""));
            match output
            case Err(e) => Err(e)
            case Ok(out) =>
              if !Truthy(out) then Ok(None)
              else if !out.JStr? then Err("AttributeError")
              else Ok(Some((name, Strip(out.s))))
  }

  /** A result line in the shape the batch service writes it. */
  function ServiceLine(customId: string, message: Record): Json {
    JObj(map["custom_id" := JStr(customId),
             "response" := JObj(map["body" := JObj(map["choices" := JArr([JObj(map["message" := JObj(message)])])])])])
  }

  /** On a line of the service's shape: missing or empty content skips the
      line; otherwise the horoscope is the stripped content under the
      `custom_id` with spaces replaced by underscores. A line without
      `custom_id` is named "unknown". */
  lemma ExtractServiceLine(customId: string, message: Record)
    ensures var content := GetOr(message, "content", JStr(""));
      && (!Truthy(content) ==> ExtractHoroscope(ServiceLine(customId, message)) == Ok(None))
      && (content.JStr? && content.s != "" ==>
            ExtractHoroscope(ServiceLine(customId, message)) == Ok(Some((ReplaceSpaces(customId), Strip(content.s)))))
    ensures ExtractHoroscope(JObj(map[])) == Ok(None)
    ensures ExtractHoroscope(JObj(map["response" := JObj(map["body" := JObj(map["choices" := JArr([JObj(map["message" := JObj(message)])])])])]))
      == (var content := GetOr(message, "content", JStr(""));
          if !Truthy(content) then Ok(None)
          else if content.JStr? then Ok(Some(("unknown", Strip(content.s))))
          else Err("AttributeError"))
  {
    assert ReplaceSpaces("unknown") == "unknown";
  }

  /** The object key of a stored horoscope. */
  function ResultKey(targetDate: string, name: string): string {
    Lower(HOROSCOPE_PREFIX + "/" + targetDate + "/" + name + ".json")
  }

  /** The key is the prefix, the lower-cased date and the lower-cased name,
      and is itself in lower case. */
  lemma ResultKeyParts(targetDate: string, name: string)
    ensures ResultKey(targetDate, name) == "horoscope/" + Lower(targetDate) + "/" + Lower(name) + ".json"
    ensures Lower(ResultKey(targetDate, name)) == ResultKey(targetDate, name)
  {
    LowerConcat(HOROSCOPE_PREFIX + "/" + targetDate + "/" + name, ".json");
    LowerConcat(HOROSCOPE_PREFIX + "/" + targetDate + "/", name);
    LowerConcat(HOROSCOPE_PREFIX + "/" + targetDate, "/");
    LowerConcat(HOROSCOPE_PREFIX + "/", targetDate);
    assert Lower("horoscope/") == "horoscope/";
    assert Lower(".json") == ".json";
    assert Lower("/") == "/";
    LowerIdempotent(HOROSCOPE_PREFIX + "/" + targetDate + "/" + name + ".json");
  }

  /** Whatever the line, a horoscope it yields is named after its
      `custom_id` ("unknown" when absent) with every space turned into an
      underscore, so the name has no space and the same length; its text
      has no whitespace at either end. A line that is not an object, or
      whose `custom_id` is not a string, raises. */
  lemma ExtractedHoroscope(item: Json)
    ensures !item.JObj? ==> ExtractHoroscope(item) == Err("AttributeError")
    ensures item.JObj? && !GetOr(item.fields, "custom_id", JStr("unknown")).JStr? ==>
      ExtractHoroscope(item) == Err("AttributeError")
    ensures var h := ExtractHoroscope(item);
      h.Ok? && h.value.Some? ==>
        var (name, text) := h.value.value;
        var customId := GetOr(item.fields, "custom_id", JStr("unknown")).s;
        && item.JObj? && name == ReplaceSpaces(customId)
        && ' ' !in name && |name| == |customId|
        && (forall k :: 0 <= k < |name| && customId[k] != ' ' ==> name[k] == customId[k])
        && (text != [] ==> !IsSpace(text[0]) && !IsSpace(text[|text| - 1]))
  {
    var h := ExtractHoroscope(item);
    if h.Ok? && h.value.Some? {
      var response := GetOr(item.fields, "response", JObj(map[]));
      var body := GetOr(response.fields, "body", JObj(map[]));
      var choices := GetOr(body.fields, "choices", JArr([JObj(map[])]));
      var output := if Truthy(choices) then FirstChoiceContent(choices) else Ok(JStr(""));
      StripIsTrim(output.value.s);
    }
  }

  /** Content made only of whitespace is truthy, so the line is not
      skipped: it stores an empty horoscope. */
  lemma BlankContentStoredEmpty(customId: string)
    ensures ExtractHoroscope(ServiceLine(customId, map["content" := JStr(" \n")])) == Ok(Some((ReplaceSpaces(customId), "")))
  {
    assert Strip(" \n") == "" by {
      assert StripStart(" \n") == StripStart("\n") == StripStart("");
    }
  }

  /** One object written to the payload store. */
  datatype Upload = Upload(key: string, data: Record)

  /** A line of the result file: what `json.loads` made of it (None when it
      is not valid JSON) and whether storing its horoscope succeeds. */
  datatype ResultLine = ResultLine(decoded: Option<Json>, uploadOk: bool)

  /** The upload a line leads to: None for a line that is skipped. */
  function LineUpload(line: ResultLine, targetDate: string): Result<Option<Upload>> {
    match line.decoded
    case None => Ok(None)
    case Some(item) =>
      match ExtractHoroscope(item)
      case Err(e) => Err(e)
      case Ok(None) => Ok(None)
      case Ok(Some((name, text))) =>
        Ok(Some(Upload(ResultKey(targetDate, name),
                       map["name" := JStr(name), "sign" := JStr(""), "horoscope" := JStr(text)])))
  }

  /** An upload a line leads to is the payload `{"name", "sign": "",
      "horoscope"}` stored under the key built from the target date and the
      name; the key is in lower case, and the name has no space. */
  lemma StoredHoroscope(line: ResultLine, targetDate: string)
    requires LineUpload(line, targetDate).Ok? && LineUpload(line, targetDate).value.Some?
    ensures var u := LineUpload(line, targetDate).value.value;
      && u.data.Keys == {"name", "sign", "horoscope"}
      && u.data["sign"] == JStr("")
      && u.data["name"].JStr? && u.data["horoscope"].JStr?
      && ' ' !in u.data["name"].s
      && u.key == "horoscope/" + Lower(targetDate) + "/" + Lower(u.data["name"].s) + ".json"
      && Lower(u.key) == u.key
  {
    var item := line.decoded.value;
    ExtractedHoroscope(item);
    var name := ExtractHoroscope(item).value.value.0;
    ResultKeyParts(targetDate, name);
  }

  /** What one line contributes to a run: the exception it raises, or the
      horoscopes it stores (none or one). */
  function LineStep(line: ResultLine, targetDate: string): Result<seq<Upload>> {
    match LineUpload(line, targetDate)
    case Err(e) => Err(e)
    case Ok(u) => Ok(if u.Some? && line.uploadOk then [u.value] else [])
  }

  /** The steps of the lines, in order. */
  function LineSteps(lines: seq<ResultLine>, targetDate: string): (steps: seq<Result<seq<Upload>>>)
    ensures |steps| == |lines|
  {
    seq(|lines|, i requires 0 <= i < |lines| => LineStep(lines[i], targetDate))
  }

  /** The successful uploads of a run over result lines, and whether an
      exception other than a JSON decoding error ended it. */
  datatype LinesRun = LinesRun(written: seq<Upload>, raised: bool)

  /** Steps taken in order until the first exception. */
  function RunSteps(steps: seq<Result<seq<Upload>>>): LinesRun {
    if steps == [] then LinesRun([], false)
    else if steps[0].Err? then LinesRun([], true)
    else
      var rest := RunSteps(steps[1..]);
      LinesRun(steps[0].value + rest.written, rest.raised)
  }

  /** `_process_results` over the lines: decoding errors are skipped, any
      other exception ends the run (earlier uploads stay written). */
  function RunLines(lines: seq<ResultLine>, targetDate: string): LinesRun {
    RunSteps(LineSteps(lines, targetDate))
  }

  /** A line succeeds when it yields an upload and the upload is stored. */
  predicate LineSucceeds(line: ResultLine, targetDate: string) {
    var u := LineUpload(line, targetDate);
    u.Ok? && u.value.Some? && line.uploadOk
  }

  /** Running two blocks of steps is running the first, then, unless it
      raised, the second. */
  lemma {:induction false} RunStepsAppend(a: seq<Result<seq<Upload>>>, b: seq<Result<seq<Upload>>>)
    ensures RunSteps(a + b) ==
      if RunSteps(a).raised then RunSteps(a)
      else LinesRun(RunSteps(a).written + RunSteps(b).written, RunSteps(b).raised)
  {
    if a == [] {
      assert a + b == b;
    } else {
      assert (a + b)[0] == a[0];
      assert (a + b)[1..] == a[1..] + b;
      RunStepsAppend(a[1..], b);
    }
  }

  lemma LineStepsAppend(a: seq<ResultLine>, b: seq<ResultLine>, targetDate: string)
    ensures LineSteps(a + b, targetDate) == LineSteps(a, targetDate) + LineSteps(b, targetDate)
  {
    var l, r := LineSteps(a + b, targetDate), LineSteps(a, targetDate) + LineSteps(b, targetDate);
    forall k | 0 <= k < |l| ensures l[k] == r[k] {
      if k < |a| { assert (a + b)[k] == a[k]; } else { assert (a + b)[k] == b[k - |a|]; }
    }
  }

  /** Running the lines of two blocks is running the first block, then,
      unless it raised, the second. */
  lemma RunLinesAppend(a: seq<ResultLine>, b: seq<ResultLine>, targetDate: string)
    ensures RunLines(a + b, targetDate) ==
      if RunLines(a, targetDate).raised then RunLines(a, targetDate)
      else LinesRun(RunLines(a, targetDate).written + RunLines(b, targetDate).written, RunLines(b, targetDate).raised)
  {
    LineStepsAppend(a, b, targetDate);
    RunStepsAppend(LineSteps(a, targetDate), LineSteps(b, targetDate));
  }

  /** A line that is not valid JSON changes nothing: the lines after it are
      processed exactly as if it were absent. */
  lemma UndecodableLineSkipped(lines: seq<ResultLine>, i: nat, targetDate: string)
    requires i < |lines| && lines[i].decoded.None?
    ensures RunLines(lines, targetDate) == RunLines(lines[..i] + lines[i + 1..], targetDate)
  {
    assert lines == lines[..i] + ([lines[i]] + lines[i + 1..]);
    RunLinesAppend(lines[..i], [lines[i]] + lines[i + 1..], targetDate);
    RunLinesAppend([lines[i]], lines[i + 1..], targetDate);
    RunLinesAppend(lines[..i], lines[i + 1..], targetDate);
    var one := LineSteps([lines[i]], targetDate);
    assert one == [Ok([])] && one[1..] == [];
    assert RunSteps(one[1..]) == LinesRun([], false);
    assert RunSteps(one) == LinesRun(one[0].value + [], false);
    assert RunLines([lines[i]], targetDate) == LinesRun([], false);
    assert RunLines(lines[..i], targetDate).written + [] == RunLines(lines[..i], targetDate).written;
  }

  /** When no step raises, something is written exactly when some step
      stores something. */
  lemma {:induction false} WrittenIffSomeStepStores(steps: seq<Result<seq<Upload>>>)
    requires !RunSteps(steps).raised
    ensures |RunSteps(steps).written| > 0 <==> exists i :: 0 <= i < |steps| && steps[i].Ok? && steps[i].value != []
  {
    if steps != [] {
      var rest := steps[1..];
      WrittenIffSomeStepStores(rest);
      if exists i :: 0 <= i < |steps| && steps[i].Ok? && steps[i].value != [] {
        var i :| 0 <= i < |steps| && steps[i].Ok? && steps[i].value != [];
        if i > 0 { assert rest[i - 1] == steps[i]; }
      }
      if exists i :: 0 <= i < |rest| && rest[i].Ok? && rest[i].value != [] {
        var i :| 0 <= i < |rest| && rest[i].Ok? && rest[i].value != [];
        assert steps[i + 1] == rest[i];
      }
    }
  }

  /** When no line raises, something was written exactly when some line
      succeeded. */
  lemma WrittenIffSomeLineSucceeds(lines: seq<ResultLine>, targetDate: string)
    requires !RunLines(lines, targetDate).raised
    ensures |RunLines(lines, targetDate).written| > 0 <==>
      exists i :: 0 <= i < |lines| && LineSucceeds(lines[i], targetDate)
  {
    var steps := LineSteps(lines, targetDate);
    WrittenIffSomeStepStores(steps);
    forall i | 0 <= i < |lines|
      ensures (steps[i].Ok? && steps[i].value != []) <==> LineSucceeds(lines[i], targetDate)
    {
    }
  }

  /** Every line stores at most one object. */
  predicate AtMostOneEach(steps: seq<Result<seq<Upload>>>) {
    forall i :: 0 <= i < |steps| && steps[i].Ok? ==> |steps[i].value| <= 1
  }

  /** Steps storing at most one object each store at most one per step. */
  lemma {:induction false} RunStepsBound(steps: seq<Result<seq<Upload>>>)
    requires AtMostOneEach(steps)
    ensures |RunSteps(steps).written| <= |steps|
  {
    if steps != [] {
      var rest := steps[1..];
      assert forall i :: 0 <= i < |rest| ==> rest[i] == steps[i + 1];
      RunStepsBound(rest);
    }
  }

  /** Over the first `n` steps, when none raises, one object is stored for
      every step that stores one. */
  lemma {:induction false} RunStepsCount(steps: seq<Result<seq<Upload>>>, n: nat)
    requires n <= |steps| && AtMostOneEach(steps)
    requires !RunSteps(steps[..n]).raised
    ensures |RunSteps(steps[..n]).written| == |set i | 0 <= i < n && steps[i].Ok? && steps[i].value != []|
  {
    if n == 0 {
      assert steps[..0] == [];
    } else {
      var last := steps[n - 1];
      assert steps[..n] == steps[..n - 1] + [last];
      RunStepsAppend(steps[..n - 1], [last]);
      assert [last][1..] == [];
      RunStepsCount(steps, n - 1);
      var before := set i | 0 <= i < n - 1 && steps[i].Ok? && steps[i].value != [];
      var now := set i | 0 <= i < n && steps[i].Ok? && steps[i].value != [];
      assert n - 1 !in before;
      if last.value != [] {
        assert now == before + {n - 1};
      } else {
        assert now == before;
      }
    }
  }

  /** `process_results` stores at most one object per line. */
  lemma RunLinesBound(lines: seq<ResultLine>, targetDate: string)
    ensures |RunLines(lines, targetDate).written| <= |lines|
  {
    RunStepsBound(LineSteps(lines, targetDate));
  }

  /** When no line raises, `process_results` stores exactly one object for
      every line that succeeds. */
  lemma WrittenCountsSucceedingLines(lines: seq<ResultLine>, targetDate: string)
    requires !RunLines(lines, targetDate).raised
    ensures |RunLines(lines, targetDate).written| == |set i | 0 <= i < |lines| && LineSucceeds(lines[i], targetDate)|
  {
    var steps := LineSteps(lines, targetDate);
    assert steps[..|steps|] == steps;
    RunStepsCount(steps, |steps|);
    assert (set i | 0 <= i < |steps| && steps[i].Ok? && steps[i].value != []) ==
           (set i | 0 <= i < |lines| && LineSucceeds(lines[i], targetDate));
  }

  /** One more step of a run that has not raised: its objects are added, and
      an error raises. */
  lemma {:induction false} RunStepsExtend(steps: seq<Result<seq<Upload>>>, i: nat)
    requires i < |steps| && !RunSteps(steps[..i]).raised
    ensures RunSteps(steps[..i + 1]) ==
      LinesRun(RunSteps(steps[..i]).written + (if steps[i].Ok? then steps[i].value else []), steps[i].Err?)
  {
    assert steps[..i + 1] == steps[..i] + [steps[i]];
    RunStepsAppend(steps[..i], [steps[i]]);
    assert [steps[i]][1..] == [];
  }

  /** A run whose first `i` steps raise raises, with what they wrote. */
  lemma {:induction false} RunStepsRaisedPrefix(steps: seq<Result<seq<Upload>>>, i: nat)
    requires i <= |steps| && RunSteps(steps[..i]).raised
    ensures RunSteps(steps) == RunSteps(steps[..i])
  {
    assert steps == steps[..i] + steps[i..];
    RunStepsAppend(steps[..i], steps[i..]);
  }

  /** `_process_results`: returns whether at least one horoscope was
      stored, or the exception that ended the run; `written` lists the
      stored horoscopes in line order. */
  method ProcessResults(lines: seq<ResultLine>, targetDate: string) returns (r: Result<bool>, written: seq<Upload>)
    ensures written == RunLines(lines, targetDate).written
    ensures r.Err? <==> RunLines(lines, targetDate).raised
    ensures r.Ok? ==> (r.value <==> |written| > 0)
    ensures r.Ok? ==> (r.value <==> exists i :: 0 <= i < |lines| && LineSucceeds(lines[i], targetDate))
    ensures |written| <= |lines|
    ensures r.Ok? ==> |written| == |set i | 0 <= i < |lines| && LineSucceeds(lines[i], targetDate)|
  {
    ghost var steps := LineSteps(lines, targetDate);
    RunLinesBound(lines, targetDate);
    var successCount := 0;
    written := [];
    var i := 0;
    while i < |lines|
      invariant 0 <= i <= |lines|
      invariant successCount == |written|
      invariant RunSteps(steps[..i]) == LinesRun(written, false)
    {
      var outcome := LineUpload(lines[i], targetDate);
      assert steps[i] == LineStep(lines[i], targetDate);
      RunStepsExtend(steps, i);
      if outcome.Err? {
        RunStepsRaisedPrefix(steps, i + 1);
        r := Err(outcome.error);
        return;
      }
      if outcome.value.Some? && lines[i].uploadOk {
        successCount := successCount + 1;
        written := written + [outcome.value.value];
      }
      i := i + 1;
    }
    assert steps[..i] == steps;
    WrittenIffSomeLineSucceeds(lines, targetDate);
    WrittenCountsSucceedingLines(lines, targetDate);
    r := Ok(successCount > 0);
  }


  // ---- one batch ----

  /** A job as the batch service reports it: its status, its output file id
      ("" when there is none), and what downloading that file yields (the
      file's lines, or the service error). */
  datatype OpenAiBatch = OpenAiBatch(status: string, outputFileId: string, resultFile: Result<seq<ResultLine>>)

  /** `check_batch_completion` given the service's answer to `retrieve`
      (an Err being a service error). */
  function CheckBatchCompletion(retrieved: Result<OpenAiBatch>): (r: Option<OpenAiBatch>)
    ensures r.Some? <==> retrieved.Ok? && retrieved.value.status in {BATCH_STATUS_COMPLETED, BATCH_STATUS_FAILED}
    ensures r.Some? ==> r.value == retrieved.value
  {
    if retrieved.Ok? && retrieved.value.status in {BATCH_STATUS_COMPLETED, BATCH_STATUS_FAILED}
    then Some(retrieved.value) else None
  }

  /** Whether processing a job's results succeeded, and what it stored. */
  datatype Processed = Processed(ok: bool, written: seq<Upload>)

  /** `download_and_upload_results` */
  function DownloadAndUpload(job: OpenAiBatch, info: Record): Processed {
    if "target_date" !in info then Processed(false, [])
    else if job.outputFileId == "" then Processed(false, [])
    else match job.resultFile
      case Err(_) => Processed(false, [])
      case Ok(lines) =>
        var run := RunLines(lines, PyStr(info["target_date"]));
        Processed(!run.raised && |run.written| > 0, run.written)
  }

  /** Processing succeeds exactly when the job has an output file that
      downloads, and its lines run without an exception and store at least
      one horoscope; a job without an output file stores nothing. */
  lemma DownloadAndUploadOutcome(job: OpenAiBatch, info: Record)
    ensures job.outputFileId == "" ==> DownloadAndUpload(job, info) == Processed(false, [])
    ensures DownloadAndUpload(job, info).ok <==>
      && "target_date" in info && job.outputFileId != "" && job.resultFile.Ok?
      && !RunLines(job.resultFile.value, PyStr(info["target_date"])).raised
      && exists i :: 0 <= i < |job.resultFile.value| &&
           LineSucceeds(job.resultFile.value[i], PyStr(info["target_date"]))
  {
    if "target_date" in info && job.outputFileId != "" && job.resultFile.Ok?
       && !RunLines(job.resultFile.value, PyStr(info["target_date"])).raised {
      WrittenIffSomeLineSucceeds(job.resultFile.value, PyStr(info["target_date"]));
    }
  }

  method DownloadAndUploadResults(job: OpenAiBatch, info: Record) returns (ok: bool, written: seq<Upload>)
    ensures Processed(ok, written) == DownloadAndUpload(job, info)
  {
    if "target_date" !in info {
      return false, [];
    }
    var targetDate := info["target_date"];
    if job.outputFileId == "" {
      return false, [];
    }
    if job.resultFile.Err? {
      return false, [];
    }
    var r;
    r, written := ProcessResults(job.resultFile.value, PyStr(targetDate));
    ok := r.Ok? && r.value;
  }

  /** The clock readings and the save outcome of one batch's status update. */
  datatype CollectStep = CollectStep(completedAt: string, now: string, saveOk: bool)

  /** The decision for one pending record: the KeyError of a record without
      `batch_id`, no update while its job is not finished, and otherwise one
      update addressed by the record's own `batch_id`. */
  function CollectOne(info: Record, retrieve: Json -> Result<OpenAiBatch>, step: CollectStep): Decision {
    if "batch_id" !in info then Raise("KeyError")
    else
      var batchId := info["batch_id"];
      match CheckBatchCompletion(retrieve(batchId))
      case None => Skip
      case Some(job) =>
        var succeeded := job.status == BATCH_STATUS_COMPLETED && DownloadAndUpload(job, info).ok;
        var newStatus := if succeeded then STATUS_COMPLETED else STATUS_FAILED;
        Apply(UpdateCall(batchId, JNull, newStatus, map["completed_at" := JStr(step.completedAt)]),
              succeeded, step.now, step.saveOk)
  }

  /** A finished job gets exactly one update, addressed by the record's
      `batch_id` alone and carrying `completed_at`; it records `completed`
      exactly when the job completed and its results were processed, and
      only then counts as a success. An unfinished job, or one the service
      cannot report on, gets none. */
  lemma CollectOneDecision(info: Record, retrieve: Json -> Result<OpenAiBatch>, step: CollectStep)
    requires "batch_id" in info
    ensures var job := retrieve(info["batch_id"]);
      var d := CollectOne(info, retrieve, step);
      && !d.Raise?
      && (d.Apply? <==> job.Ok? && job.value.status in {BATCH_STATUS_COMPLETED, BATCH_STATUS_FAILED})
      && (d.Apply? ==>
            && d.call.batchId == info["batch_id"] && d.call.s3Key == JNull
            && d.call.extra == map["completed_at" := JStr(step.completedAt)]
            && d.call.newStatus in {STATUS_COMPLETED, STATUS_FAILED}
            && (d.call.newStatus == STATUS_COMPLETED <==>
                  job.value.status == BATCH_STATUS_COMPLETED && DownloadAndUpload(job.value, info).ok)
            && (d.succeeded <==> d.call.newStatus == STATUS_COMPLETED)
            && d.now == step.now && d.saveOk == step.saveOk)
  {
  }

  /** The decisions for the pending records, `env(i)` holding the clock
      readings and save outcome for the i-th. */
  function CollectDecisions(pending: seq<Json>, retrieve: Json -> Result<OpenAiBatch>, env: nat -> CollectStep): (ds: seq<Decision>)
    requires AllRecords(pending)
    ensures |ds| == |pending|
  {
    seq(|pending|, i requires 0 <= i < |pending| => CollectOne(pending[i].fields, retrieve, env(i)))
  }

  /** `process_pending_batches` */
  function CollectStage(stored: Option<Json>, retrieve: Json -> Result<OpenAiBatch>, env: nat -> CollectStep): StageRun {
    match BatchesWithStatus(stored, STATUS_SUBMITTED)
    case Err(_) => StageRun(false, stored)
    case Ok(pending) =>
      if pending == [] then StageRun(true, stored)
      else RunUpdates(CollectDecisions(pending, retrieve, env), 0, stored, 0)
  }

  /** Pending record `j` is counted as a success: its job completed and its
      results were processed. */
  predicate CollectSucceeds(pending: seq<Json>, j: int, retrieve: Json -> Result<OpenAiBatch>, env: nat -> CollectStep)
    requires AllRecords(pending)
  {
    && 0 <= j < |pending| && "batch_id" in pending[j].fields
    && var job := retrieve(pending[j].fields["batch_id"]);
       job.Ok? && job.value.status == BATCH_STATUS_COMPLETED && DownloadAndUpload(job.value, pending[j].fields).ok
  }

  /** The stage returns True when nothing is pending; otherwise, on a
      readable store whose pending records all carry a `batch_id`, it
      returns True exactly when some job completed and its results were
      processed, whatever the outcome of the control-file saves. */
  lemma CollectStageResult(stored: Option<Json>, retrieve: Json -> Result<OpenAiBatch>, env: nat -> CollectStep)
    requires WellFormed(stored)
    ensures var pending := Filter(Batches(stored), STATUS_SUBMITTED);
      && (pending == [] ==> CollectStage(stored, retrieve, env) == StageRun(true, stored))
      && (AllRecords(pending) && (forall j :: 0 <= j < |pending| ==> "batch_id" in pending[j].fields) ==>
            (CollectStage(stored, retrieve, env).ok <==>
               pending == [] || exists j :: CollectSucceeds(pending, j, retrieve, env)))
  {
    QueryOnWellFormed(stored, STATUS_SUBMITTED);
    var pending := Filter(Batches(stored), STATUS_SUBMITTED);
    if pending != [] && forall j :: 0 <= j < |pending| ==> "batch_id" in pending[j].fields {
      var ds := CollectDecisions(pending, retrieve, env);
      forall j | 0 <= j < |pending|
        ensures !ds[j].Raise?
        ensures Counted(ds, j) <==> CollectSucceeds(pending, j, retrieve, env)
      {
        CollectOneDecision(pending[j].fields, retrieve, env(j));
      }
      RunUpdatesResult(ds, 0, stored, 0);
      if exists j :: CollectSucceeds(pending, j, retrieve, env) {
        var j :| CollectSucceeds(pending, j, retrieve, env);
        assert Counted(ds, j);
      }
    }
  }

  /** The Collect stage only ever writes `completed` or `failed`: after it,
      every record is unchanged or has one of those two statuses, and no
      record is added or removed. */
  lemma CollectWritesOnlyTerminal(stored: Option<Json>, retrieve: Json -> Result<OpenAiBatch>, env: nat -> CollectStep)
    requires WellFormed(stored)
    ensures StatusesWithin(stored, CollectStage(stored, retrieve, env).stored, {STATUS_COMPLETED, STATUS_FAILED})
  {
    StatusesWithinRefl(stored, {STATUS_COMPLETED, STATUS_FAILED});
    QueryOnWellFormed(stored, STATUS_SUBMITTED);
    var pending := Filter(Batches(stored), STATUS_SUBMITTED);
    if pending != [] {
      var ds := CollectDecisions(pending, retrieve, env);
      forall j | 0 <= j < |ds| && ds[j].Apply?
        ensures ds[j].call.newStatus in {STATUS_COMPLETED, STATUS_FAILED}
        ensures ds[j].call.newStatus != "" && "status" !in ds[j].call.extra
      {
        CollectOneDecision(pending[j].fields, retrieve, env(j));
      }
      RunUpdatesStatuses(ds, 0, stored, 0, {STATUS_COMPLETED, STATUS_FAILED});
    }
  }
  /** Each update of the stage is addressed by its own record's id alone,
      and leaves the matched fields alone. */
  lemma CollectDecisionsAddressed(pending: seq<Json>, retrieve: Json -> Result<OpenAiBatch>, env: nat -> CollectStep)
    requires AllRecords(pending)
    ensures var ds := CollectDecisions(pending, retrieve, env);
      && KeepsMatchedFields(ds)
      && forall k :: 0 <= k < |ds| && ds[k].Apply? ==>
           ds[k].call.batchId == Get(pending[k].fields, "batch_id") && ds[k].call.s3Key == JNull
  {
    var ds := CollectDecisions(pending, retrieve, env);
    forall k | 0 <= k < |ds| && ds[k].Apply?
      ensures "batch_id" !in ds[k].call.extra && "input_file" !in ds[k].call.extra
      ensures ds[k].call.batchId == Get(pending[k].fields, "batch_id") && ds[k].call.s3Key == JNull
    {
      CollectOneDecision(pending[k].fields, retrieve, env(k));
    }
  }

  /** When batch ids are unique, the Collect stage changes only records that
      were `submitted`, and the records stay unique. That each submitted
      record receives its own update is `CollectReachesSubmitted` below. */
  lemma {:induction false} CollectChangesOnlySubmitted(stored: Option<Json>, retrieve: Json -> Result<OpenAiBatch>,
                                                       env: nat -> CollectStep)
    requires WellFormed(stored) && UniqueKeys(Batches(stored))
    ensures var bs := Batches(stored);
      var after := Batches(CollectStage(stored, retrieve, env).stored);
      && |after| == |bs| && UniqueKeys(after)
      && (forall j :: 0 <= j < |bs| && after[j] != bs[j] ==> HasStatus(bs[j], STATUS_SUBMITTED))
  {
    QueryOnWellFormed(stored, STATUS_SUBMITTED);
    var bs := Batches(stored);
    var pending := Filter(bs, STATUS_SUBMITTED);
    if pending != [] {
      CollectDecisionsAddressed(pending, retrieve, env);
      RunUpdatesChangesOnlyQueried(CollectDecisions(pending, retrieve, env), stored, pending, STATUS_SUBMITTED);
    }
  }


  /** The objects stored while handling one pending record: the results of
      its job when that job has completed, nothing otherwise. */
  function RecordUploads(info: Record, retrieve: Json -> Result<OpenAiBatch>): seq<Upload> {
    if "batch_id" !in info then []
    else match CheckBatchCompletion(retrieve(info["batch_id"]))
      case None => []
      case Some(job) => if job.status == BATCH_STATUS_COMPLETED then DownloadAndUpload(job, info).written else []
  }

  /** The objects stored for each pending record, in list order. */
  function PendingUploads(pending: seq<Json>, retrieve: Json -> Result<OpenAiBatch>): (ups: seq<seq<Upload>>)
    requires AllRecords(pending)
    ensures |ups| == |pending|
  {
    seq(|pending|, k requires 0 <= k < |pending| => RecordUploads(pending[k].fields, retrieve))
  }

  /** The first `n` blocks, joined in order. */
  function Concat<T>(xss: seq<seq<T>>, n: nat): seq<T>
    requires n <= |xss|
  {
    if n == 0 then [] else Concat(xss, n - 1) + xss[n - 1]
  }

  /** Every object the Collect stage stores, in order: those of each pending
      record the stage gets to before an exception ends it. */
  function CollectWritten(stored: Option<Json>, retrieve: Json -> Result<OpenAiBatch>, env: nat -> CollectStep): seq<Upload> {
    match BatchesWithStatus(stored, STATUS_SUBMITTED)
    case Err(_) => []
    case Ok(pending) =>
      if pending == [] then []
      else Concat(PendingUploads(pending, retrieve), Reached(CollectDecisions(pending, retrieve, env), 0, stored))
  }

  /** The first `m` blocks come first among the first `n`. */
  lemma {:induction false} ConcatPrefix<T>(xss: seq<seq<T>>, m: nat, n: nat)
    requires m <= n <= |xss|
    ensures Concat(xss, m) <= Concat(xss, n)
    decreases n
  {
    if m < n {
      ConcatPrefix(xss, m, n - 1);
      assert Concat(xss, n)[..|Concat(xss, m)|] == Concat(xss, n - 1)[..|Concat(xss, m)|];
    }
  }

  /** A record counted as a success has stored at least one object. */
  lemma CountedRecordStores(pending: seq<Json>, retrieve: Json -> Result<OpenAiBatch>, env: nat -> CollectStep, k: nat)
    requires AllRecords(pending) && k < |pending|
    requires Counted(CollectDecisions(pending, retrieve, env), k)
    ensures RecordUploads(pending[k].fields, retrieve) != []
  {
    var info := pending[k].fields;
    assert CollectDecisions(pending, retrieve, env)[k] == CollectOne(info, retrieve, env(k));
    var job := CheckBatchCompletion(retrieve(info["batch_id"])).value;
    assert job.status == BATCH_STATUS_COMPLETED && DownloadAndUpload(job, info).ok;
  }

  /** On a well-formed store whose submitted records all carry a `batch_id`,
      the stage stores the objects of every pending record, in order. */
  lemma CollectWrittenAll(stored: Option<Json>, retrieve: Json -> Result<OpenAiBatch>, env: nat -> CollectStep)
    requires WellFormed(stored)
    requires forall i :: 0 <= i < |Batches(stored)| && HasStatus(Batches(stored)[i], STATUS_SUBMITTED) ==>
      "batch_id" in Batches(stored)[i].fields
    ensures var pending := Filter(Batches(stored), STATUS_SUBMITTED);
      CollectWritten(stored, retrieve, env) == Concat(PendingUploads(pending, retrieve), |pending|)
  {
    QueryOnWellFormed(stored, STATUS_SUBMITTED);
    var bs := Batches(stored);
    var pending := Filter(bs, STATUS_SUBMITTED);
    if pending != [] {
      CollectDecisionsNoRaise(bs, retrieve, env);
      RunUpdatesReachesAll(CollectDecisions(pending, retrieve, env), 0, stored);
    }
  }

  /** When some record was pending, the stage returns True only after
      handling every pending record and storing at least one object. */
  lemma {:induction false} CollectOkStoredSome(stored: Option<Json>, retrieve: Json -> Result<OpenAiBatch>,
                                               env: nat -> CollectStep)
    requires CollectStage(stored, retrieve, env).ok && BatchesWithStatus(stored, STATUS_SUBMITTED) != Ok([])
    ensures BatchesWithStatus(stored, STATUS_SUBMITTED).Ok?
    ensures var pending := BatchesWithStatus(stored, STATUS_SUBMITTED).value;
      && CollectWritten(stored, retrieve, env) == Concat(PendingUploads(pending, retrieve), |pending|)
      && CollectWritten(stored, retrieve, env) != []
  {
    var pending := BatchesWithStatus(stored, STATUS_SUBMITTED).value;
    var ds := CollectDecisions(pending, retrieve, env);
    RunUpdatesOkReachesAll(ds, 0, stored, 0);
    var k :| 0 <= k && Counted(ds, k);
    CountedRecordStores(pending, retrieve, env, k);
    ConcatPrefix(PendingUploads(pending, retrieve), k + 1, |pending|);
  }

  /** No decision of the stage raises when every submitted record carries a
      `batch_id`. */
  lemma CollectDecisionsNoRaise(bs: seq<Json>, retrieve: Json -> Result<OpenAiBatch>, env: nat -> CollectStep)
    requires AllRecords(bs)
    requires forall i :: 0 <= i < |bs| && HasStatus(bs[i], STATUS_SUBMITTED) ==> "batch_id" in bs[i].fields
    ensures var ds := CollectDecisions(Filter(bs, STATUS_SUBMITTED), retrieve, env);
      forall k :: 0 <= k < |ds| ==> !ds[k].Raise?
  {
    var pending := Filter(bs, STATUS_SUBMITTED);
    var ds := CollectDecisions(pending, retrieve, env);
    forall k | 0 <= k < |ds| ensures !ds[k].Raise? {
      assert pending[k] in bs;
      CollectOneDecision(pending[k].fields, retrieve, env(k));
    }
  }

  /** When batch ids are unique and every submitted record carries a
      `batch_id`, a submitted record with a non-empty id receives the
      update issued for it, with the outcomes `env(k)` of its own turn (k
      being its rank among the submitted records). While its job is
      unfinished, or the lookup fails, the record is left as it was. Once
      the job has finished and the update is saved, the record becomes
      `completed` when the job completed and its results were processed,
      and `failed` otherwise, with the completion time added; if the save
      fails, the record is left as it was. */
  lemma {:induction false} CollectReachesSubmitted(stored: Option<Json>, retrieve: Json -> Result<OpenAiBatch>,
                                                   env: nat -> CollectStep, j: nat)
    requires WellFormed(stored) && UniqueKeys(Batches(stored))
    requires forall i :: 0 <= i < |Batches(stored)| && HasStatus(Batches(stored)[i], STATUS_SUBMITTED) ==>
      "batch_id" in Batches(stored)[i].fields
    requires j < |Batches(stored)| && HasStatus(Batches(stored)[j], STATUS_SUBMITTED)
    requires Truthy(Get(Batches(stored)[j].fields, "batch_id"))
    ensures var bs := Batches(stored);
      var info := bs[j].fields;
      var step := env(Rank(bs, STATUS_SUBMITTED, j));
      var job := CheckBatchCompletion(retrieve(info["batch_id"]));
      var newStatus := if job.Some? && job.value.status == BATCH_STATUS_COMPLETED && DownloadAndUpload(job.value, info).ok
                       then STATUS_COMPLETED else STATUS_FAILED;
      var after := Batches(CollectStage(stored, retrieve, env).stored);
      && j < |after|
      && after[j] == (if job.Some? && step.saveOk
                      then JObj(UpdatedRecord(info, newStatus, map["completed_at" := JStr(step.completedAt)], step.now))
                      else bs[j])
      && (job.Some? && step.saveOk ==> Get(after[j].fields, "status") == JStr(newStatus))
  {
    QueryOnWellFormed(stored, STATUS_SUBMITTED);
    var bs := Batches(stored);
    var info := bs[j].fields;
    var pending := Filter(bs, STATUS_SUBMITTED);
    FilterAt(bs, STATUS_SUBMITTED, j);
    var k := Rank(bs, STATUS_SUBMITTED, j);
    var step := env(k);
    var ds := CollectDecisions(pending, retrieve, env);
    CollectDecisionsAddressed(pending, retrieve, env);
    CollectDecisionsNoRaise(bs, retrieve, env);
    FilterKeepsUniqueKeys(bs, STATUS_SUBMITTED);
    var d := CollectOne(info, retrieve, step);
    CollectOneDecision(info, retrieve, step);
    assert ds[k] == d;
    RunUpdatesReachesQueried(ds, stored, pending, k, j);
    assert CollectStage(stored, retrieve, env) == RunUpdates(ds, 0, stored, 0);
    if d.Apply? {
      UpdatedStatus(info, d.call.newStatus, d.call.extra, step.now);
    }
  }

  /** One pass of `process_pending_batches`' loop, for the record `info`:
      whether it raised, whether the batch counts as a success, and what it
      stored. It does what the record's decision says. */
  method ProcessPendingBatch(control: ControlStore, info: Record, retrieve: Json -> Result<OpenAiBatch>, step: CollectStep)
    returns (raised: bool, succeeded: bool, uploads: seq<Upload>)
    modifies control
    ensures var d := CollectOne(info, retrieve, step);
      && uploads == RecordUploads(info, retrieve)
      && (d.Raise? ==> raised && control.stored == old(control.stored))
      && (d.Skip? ==> !raised && !succeeded && control.stored == old(control.stored))
      && (d.Apply? ==>
            var e := UpdateEffect(old(control.stored), d.call, d.now, d.saveOk);
            raised == e.result.Err? && succeeded == d.succeeded && control.stored == e.stored)
  {
    uploads := [];
    succeeded := false;
    if "batch_id" !in info {
      return true, succeeded, uploads;
    }
    var batchId := info["batch_id"];
    var job := CheckBatchCompletion(retrieve(batchId));
    if job.None? {
      return false, succeeded, uploads;
    }
    var newStatus;
    if job.value.status == BATCH_STATUS_COMPLETED {
      var success;
      success, uploads := DownloadAndUploadResults(job.value, info);
      newStatus := if success then STATUS_COMPLETED else STATUS_FAILED;
      succeeded := success;
    } else {
      newStatus := STATUS_FAILED;
    }
    var updated := control.UpdateBatchStatus(step.now, step.saveOk, batchId := batchId, newStatus := newStatus,
                                             extra := map["completed_at" := JStr(step.completedAt)]);
    raised := updated.Err?;
  }

  /** `process_pending_batches` against the control store; `written` is
      what it stores in the object store, in order. */
  method ProcessPendingBatches(control: ControlStore, retrieve: Json -> Result<OpenAiBatch>, env: nat -> CollectStep)
    returns (ok: bool, written: seq<Upload>)
    modifies control
    ensures StageRun(ok, control.stored) == CollectStage(old(control.stored), retrieve, env)
    ensures written == CollectWritten(old(control.stored), retrieve, env)
  {
    written := [];
    var pending := control.GetPendingBatches();
    if pending.Err? {
      return false, written;
    }
    var batches := pending.value;
    if batches == [] {
      return true, written;
    }
    ghost var ds := CollectDecisions(batches, retrieve, env);
    ghost var reached := Reached(ds, 0, control.stored);
    ghost var ups := PendingUploads(batches, retrieve);
    var successCount := 0;
    var i := 0;
    while i < |batches|
      invariant 0 <= i <= |batches|
      invariant RunUpdates(ds, i, control.stored, successCount) == CollectStage(old(control.stored), retrieve, env)
      invariant Reached(ds, i, control.stored) == reached
      invariant written == Concat(ups, i)
    {
      assert ds[i] == CollectOne(batches[i].fields, retrieve, env(i));
      assert ups[i] == RecordUploads(batches[i].fields, retrieve) && Concat(ups, i + 1) == written + ups[i];
      RunUpdatesStep(ds, i, control.stored, successCount);
      var raised, succeeded, uploads := ProcessPendingBatch(control, batches[i].fields, retrieve, env(i));
      written := written + uploads;
      if raised {
        return false, written;
      }
      if succeeded {
        successCount := successCount + 1;
      }
      i := i + 1;
    }
    ok := successCount > 0;
  }
}
