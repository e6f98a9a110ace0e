/**
 * Result capture. The listener is called once for each finished test. It saves a
 * diagnostic artifact: a screenshot for a UI test, or a JSON capture of the request and
 * response for an API test. It then appends one row to `execution_log` and one row to the
 * category's detail table, `ui_tests` or `api_responses`.
 *
 * The database tables and the artifact directory are fields of the listener. The
 * browser driver, the clock and whether each file or SQL call succeeds are inputs, held
 * in an `Environment`.
 */
module Listeners {
  import opened Wrappers

  const MaxUsIdLength: nat := 50
  const MaxTcIdLength: nat := 255
  const NotAvailable: string := "N/A"
  const EmptyObject: string := "{}"
  const ArtifactsDir: string := "artifacts/"
  const ScreenshotDir: string := ArtifactsDir + "screenshots/"
  const ApiArtifactDir: string := ArtifactsDir + "api/"

  function Min(a: nat, b: nat): nat { if a < b then a else b }

  // ---------- Truncation ----------

  /** `truncate`: a null value becomes "N/A"; any other value is cut to its first `maxLength` characters. */
  function Truncate(value: Option<string>, maxLength: nat): (r: string)
    ensures value.None? ==> r == NotAvailable
    ensures value.Some? ==> r <= value.value && |r| == Min(|value.value|, maxLength)
  {
    match value
    case None => NotAvailable
    case Some(v) => if |v| > maxLength then v[..maxLength] else v
  }

  /** Truncating an already truncated value changes nothing, as long as "N/A" itself fits. */
  lemma TruncateIdempotent(value: Option<string>, maxLength: nat)
    requires |NotAvailable| <= maxLength
    ensures Truncate(Some(Truncate(value, maxLength)), maxLength) == Truncate(value, maxLength)
  {
  }

  // ---------- Quote escaping for the API artifact ----------

  /** The number of double quotes in `s`. */
  function QuoteCount(s: string): nat
  {
    if s == [] then 0 else (if s[0] == '"' then 1 else 0) + QuoteCount(s[1..])
  }

  /** `s.replace("\"", "\\\"")`: every double quote gets a backslash in front of it. */
  function EscapeQuotes(s: string): (r: string)
    ensures |r| == |s| + QuoteCount(s)
  {
    if s == [] then []
    else
      (if s[0] == '"' then "\\\"" else [s[0]]) + EscapeQuotes(s[1..])
  }

  /** Reads escaped text back: a backslash directly followed by a quote stands for the quote. */
  function Unescape(s: string): string
  {
    if |s| >= 2 && s[0] == '\\' && s[1] == '"' then "\"" + Unescape(s[2..])
    else if s == [] then []
    else [s[0]] + Unescape(s[1..])
  }

  lemma UnescapeQuoteHead(rest: string)
    ensures Unescape("\\\"" + rest) == "\"" + Unescape(rest)
  {
    assert ("\\\"" + rest)[2..] == rest;
  }

  lemma UnescapePlainHead(c: char, rest: string)
    requires !(c == '\\' && rest != [] && rest[0] == '"')
    ensures Unescape([c] + rest) == [c] + Unescape(rest)
  {
    assert ([c] + rest)[1..] == rest;
  }

  /** The escaping is lossless: the original text can be read back from its escaped form. */
  lemma {:induction false} UnescapeEscapeQuotes(s: string)
    ensures Unescape(EscapeQuotes(s)) == s
  {
    if s != [] {
      var rest := EscapeQuotes(s[1..]);
      UnescapeEscapeQuotes(s[1..]);
      if s[0] == '"' {
        assert EscapeQuotes(s) == "\\\"" + rest;
        UnescapeQuoteHead(rest);
      } else {
        assert EscapeQuotes(s) == [s[0]] + rest;
        EscapedDoesNotStartWithQuote(s[1..]);
        UnescapePlainHead(s[0], rest);
      }
      assert s == [s[0]] + s[1..];
    }
  }

  lemma EscapedDoesNotStartWithQuote(s: string)
    ensures EscapeQuotes(s) == [] || EscapeQuotes(s)[0] != '"'
  {
  }

  /** In escaped text every double quote has a backslash right before it. */
  lemma {:induction false} EscapedQuotesArePreceded(s: string)
    ensures forall i :: 0 <= i < |EscapeQuotes(s)| && EscapeQuotes(s)[i] == '"' ==>
      0 < i && EscapeQuotes(s)[i - 1] == '\\'
  {
    if s != [] {
      EscapedQuotesArePreceded(s[1..]);
      var head: string := if s[0] == '"' then "\\\"" else [s[0]];
      var rest := EscapeQuotes(s[1..]);
      assert EscapeQuotes(s) == head + rest;
      EscapedDoesNotStartWithQuote(s[1..]);
      forall i | 0 <= i < |head + rest| && (head + rest)[i] == '"'
        ensures 0 < i && (head + rest)[i - 1] == '\\'
      {
        if i >= |head| {
          assert rest[i - |head|] == '"';
        }
      }
    }
  }

  // ---------- Artifact paths and content ----------

  /** `dir + testName + "_" + timestamp + ext`, the name given to every artifact file. */
  function ArtifactPath(dir: string, testName: string, timestamp: string, ext: string): (p: string)
    ensures dir <= p && p != []
    ensures |p| == |dir| + |testName| + 1 + |timestamp| + |ext|
  {
    dir + testName + "_" + timestamp + ext
  }

  function ScreenshotPath(testName: string, timestamp: string): string
  {
    ArtifactPath(ScreenshotDir, testName, timestamp, ".png")
  }

  function ApiArtifactPath(testName: string, timestamp: string): string
  {
    ArtifactPath(ApiArtifactDir, testName, timestamp, ".json")
  }

  /**
   * With fixed-width timestamps, the path names the test and the second it was taken in:
   * two artifacts share a file only when both the test name and the timestamp agree.
   */
  lemma ArtifactPathInjective(dir: string, ext: string, n1: string, t1: string, n2: string, t2: string)
    requires |t1| == |t2|
    requires ArtifactPath(dir, n1, t1, ext) == ArtifactPath(dir, n2, t2, ext)
    ensures n1 == n2 && t1 == t2
  {
    var p := ArtifactPath(dir, n1, t1, ext);
    var q := ArtifactPath(dir, n2, t2, ext);
    assert |n1| == |n2|;
    assert p == dir + n1 + "_" + t1 + ext;
    assert q == dir + n2 + "_" + t2 + ext;
    assert n1 == p[|dir|..|dir| + |n1|];
    assert n2 == q[|dir|..|dir| + |n2|];
    assert t1 == p[|dir| + |n1| + 1..|dir| + |n1| + 1 + |t1|];
    assert t2 == q[|dir| + |n2| + 1..|dir| + |n2| + 1 + |t2|];
  }

  /** The JSON text written for an API test up to the opening quote of the request. */
  function ApiArtifactHead(testName: string, timestamp: string): (h: string)
    ensures |h| == 53 + |testName| + |timestamp|
  {
    "{\n" +
    "  \"testName\": \"" + testName + "\",\n" +
    "  \"timestamp\": \"" + timestamp + "\",\n" +
    "  \"request\": \""
  }

  /** The text between the escaped request and the escaped response. */
  const ResponseKey: string := "\",\n  \"response\": \""

  /** The text after the escaped response. */
  const CaptureEnd: string := "\"\n}"

  /** The JSON text written for an API test from the closing quote of the request on. */
  function ApiArtifactTail(response: string): (t: string)
    ensures |t| == 21 + |response| + QuoteCount(response)
  {
    ResponseKey + EscapeQuotes(response) + CaptureEnd
  }

  /** The JSON text written for an API test; request and response are quote-escaped. */
  function ApiArtifactContent(testName: string, timestamp: string, request: string, response: string): (c: string)
    ensures |c| == 74 + |testName| + |timestamp|
                 + |request| + QuoteCount(request) + |response| + QuoteCount(response)
  {
    ApiArtifactHead(testName, timestamp) + EscapeQuotes(request) + ApiArtifactTail(response)
  }

  /** Every double quote in `e` has a backslash right before it, as in escaped text. */
  predicate QuotesEscaped(e: string)
  {
    forall i :: 0 <= i < |e| && e[i] == '"' ==> 0 < i && e[i - 1] == '\\'
  }

  /**
   * Escaped text followed by the response key can be split in one way only: the key's
   * second quote follows a space, which escaped text never has before a quote.
   */
  lemma EscapedTextBeforeKey(e1: string, rest1: string, e2: string, rest2: string)
    requires QuotesEscaped(e2) && |e1| <= |e2|
    requires e1 + (ResponseKey + rest1) == e2 + (ResponseKey + rest2)
    ensures e1 == e2
  {
    var x := e1 + (ResponseKey + rest1);
    var k := |e1|;
    // Where the key starts after e1: a space, a quote, then "response".
    assert x[k + 1] == ',' && x[k + 2] == '\n' && x[k + 3] == ' ';
    assert x[k + 4] == ' ' && x[k + 5] == '"' && x[k + 6] == 'r';
    // Where the key starts after e2: a quote, then a comma.
    assert x[|e2|] == '"' && x[|e2| + 1] == ',';
    assert k == |e2|;
    assert e1 == x[..k] == e2;
  }

  lemma DropCommonPrefix(h: string, x: string, y: string)
    requires h + x == h + y
    ensures x == y
  {
    assert x == (h + x)[|h|..];
  }

  lemma DropCommonSuffix(x: string, y: string, z: string)
    requires x + z == y + z
    ensures x == y
  {
    assert x == (x + z)[..|x|];
  }

  /** The capture is the head, the escaped request, the response key, the escaped response and the closing text. */
  lemma ApiArtifactContentShape(testName: string, timestamp: string, request: string, response: string)
    ensures ApiArtifactContent(testName, timestamp, request, response) ==
            ApiArtifactHead(testName, timestamp) + (EscapeQuotes(request) + (ResponseKey + (EscapeQuotes(response) + CaptureEnd)))
  {
    var h, e, f := ApiArtifactHead(testName, timestamp), EscapeQuotes(request), EscapeQuotes(response);
    assert ResponseKey + f + CaptureEnd == ResponseKey + (f + CaptureEnd);
    assert h + e + (ResponseKey + (f + CaptureEnd)) == h + (e + (ResponseKey + (f + CaptureEnd)));
  }

  /**
   * Different captures come from different inputs: for one test name and timestamp, the
   * capture text determines both the request and the response.
   */
  lemma ApiArtifactContentInjective(testName: string, timestamp: string,
                                    request1: string, response1: string, request2: string, response2: string)
    requires ApiArtifactContent(testName, timestamp, request1, response1) ==
             ApiArtifactContent(testName, timestamp, request2, response2)
    ensures request1 == request2 && response1 == response2
  {
    var e1, e2 := EscapeQuotes(request1), EscapeQuotes(request2);
    var f1, f2 := EscapeQuotes(response1), EscapeQuotes(response2);
    ApiArtifactContentShape(testName, timestamp, request1, response1);
    ApiArtifactContentShape(testName, timestamp, request2, response2);
    DropCommonPrefix(ApiArtifactHead(testName, timestamp),
                     e1 + (ResponseKey + (f1 + CaptureEnd)), e2 + (ResponseKey + (f2 + CaptureEnd)));
    EscapedQuotesArePreceded(request1);
    EscapedQuotesArePreceded(request2);
    if |e1| <= |e2| {
      EscapedTextBeforeKey(e1, f1 + CaptureEnd, e2, f2 + CaptureEnd);
    } else {
      EscapedTextBeforeKey(e2, f2 + CaptureEnd, e1, f1 + CaptureEnd);
    }
    DropCommonPrefix(e1, ResponseKey + (f1 + CaptureEnd), ResponseKey + (f2 + CaptureEnd));
    DropCommonPrefix(ResponseKey, f1 + CaptureEnd, f2 + CaptureEnd);
    DropCommonSuffix(f1, f2, CaptureEnd);
    UnescapeEscapeQuotes(request1);
    UnescapeEscapeQuotes(request2);
    UnescapeEscapeQuotes(response1);
    UnescapeEscapeQuotes(response2);
  }

  // ---------- What the test framework hands the listener ----------

  /** TestNG's status of a finished test; `isSuccess()` holds only for `Succeeded`. */
  datatype TestStatus = Succeeded | Failed | Skipped

  /** A finished test: its name, class name, status, attributes (as `toString()` texts) and method. */
  datatype TestResult = TestResult(
    name: string,
    className: string,
    status: TestStatus,
    attributes: map<string, string>,
    description: Option<string>,
    methodName: string)
  {
    predicate IsSuccess() { status == Succeeded }

    /** `getAttribute(key).toString()` when the attribute is set, else `default`. */
    function AttributeOr(key: string, default: string): string
    {
      if key in attributes then attributes[key] else default
    }
  }

  /**
   * The driver, the clock and the external calls seen by one listener invocation.
   * `artifactStamp` is the `yyyyMMdd_HHmmss` reading used for the artifact file; `logTime`
   * and `detailTime` are the two `yyyy-MM-dd HH:mm:ss` readings taken for the two inserts.
   * The flags say whether each call succeeds: creating the directory, taking the screenshot,
   * writing the file, and the two SQL inserts.
   */
  datatype Environment = Environment(
    driverPresent: bool,
    artifactStamp: string,
    logTime: string,
    detailTime: string,
    dirOk: bool,
    captureOk: bool,
    writeOk: bool,
    logInsertOk: bool,
    detailInsertOk: bool)

  // ---------- Identity, status and category of a result ----------

  /** `result.isSuccess() ? "PASS" : "FAIL"`; a skipped test is recorded as FAIL. */
  function StatusOf(result: TestResult): (s: string)
    ensures s == "PASS" <==> result.status == Succeeded
    ensures s == "FAIL" <==> result.status != Succeeded
    ensures s != "SKIP"
  {
    if result.IsSuccess() then "PASS" else "FAIL"
  }

  /** The user-story id before truncation: the `US_ID` attribute, else "N/A". */
  function RawUsId(result: TestResult): string
  {
    result.AttributeOr("US_ID", NotAvailable)
  }

  /** The test-case id before truncation: `TC_ID`, else a non-empty description, else the method name. */
  function RawTcId(result: TestResult): string
  {
    if "TC_ID" in result.attributes then result.attributes["TC_ID"]
    else if result.description.Some? && result.description.value != "" then result.description.value
    else result.methodName
  }

  /** The stored user-story id. */
  function UsIdFor(result: TestResult): (u: string)
    ensures |u| <= MaxUsIdLength && u <= RawUsId(result)
    ensures |u| == Min(|RawUsId(result)|, MaxUsIdLength)
    ensures "US_ID" !in result.attributes ==> u == NotAvailable
    ensures |RawUsId(result)| <= MaxUsIdLength ==> u == RawUsId(result)
  {
    Truncate(Some(RawUsId(result)), MaxUsIdLength)
  }

  /** The stored test-case id: the first available of the fallback chain, cut to 255 characters. */
  function TcIdFor(result: TestResult): (t: string)
    ensures |t| <= MaxTcIdLength && t <= RawTcId(result)
    ensures |t| == Min(|RawTcId(result)|, MaxTcIdLength)
    ensures "TC_ID" in result.attributes ==> t <= result.attributes["TC_ID"]
    ensures "TC_ID" !in result.attributes && result.description.Some? && result.description.value != "" ==>
              t <= result.description.value
    ensures "TC_ID" !in result.attributes && (result.description.None? || result.description.value == "") ==>
              t <= result.methodName
    ensures |RawTcId(result)| <= MaxTcIdLength ==> t == RawTcId(result)
  {
    Truncate(Some(RawTcId(result)), MaxTcIdLength)
  }

  /** `String.contains`: `sub` occurs somewhere in `s`. */
  predicate Contains(s: string, sub: string)
  {
    |sub| <= |s| && (s[..|sub|] == sub || Contains(s[1..], sub))
  }

  /** `sub` occurs in `s` starting at index `i`. */
  predicate OccursAt(s: string, sub: string, i: nat)
  {
    i + |sub| <= |s| && s[i..i + |sub|] == sub
  }

  lemma {:induction false} ContainsAt(s: string, sub: string, i: nat)
    requires OccursAt(s, sub, i)
    ensures Contains(s, sub)
  {
    if i > 0 {
      assert s[1..][i - 1..i - 1 + |sub|] == s[i..i + |sub|];
      ContainsAt(s[1..], sub, i - 1);
    }
  }

  lemma {:induction false} ContainsFindsIndex(s: string, sub: string)
    requires Contains(s, sub)
    ensures exists i: nat :: OccursAt(s, sub, i)
  {
    if s[..|sub|] == sub {
      assert OccursAt(s, sub, 0);
    } else {
      ContainsFindsIndex(s[1..], sub);
      var i: nat :| OccursAt(s[1..], sub, i);
      assert s[i + 1..i + 1 + |sub|] == s[1..][i..i + |sub|];
      assert OccursAt(s, sub, i + 1);
    }
  }

  /** `Contains` is exactly "occurs at some index", in both directions. */
  lemma ContainsIff(s: string, sub: string)
    ensures Contains(s, sub) <==> exists i: nat :: OccursAt(s, sub, i)
  {
    if Contains(s, sub) {
      ContainsFindsIndex(s, sub);
    }
    if exists i: nat :: OccursAt(s, sub, i) {
      var i: nat :| OccursAt(s, sub, i);
      ContainsAt(s, sub, i);
    }
  }

  datatype TestType = UI | API

  /** The category of a result: UI exactly when its class name contains ".ui.". */
  function TypeOf(result: TestResult): TestType
  {
    if Contains(result.className, ".ui.") then UI else API
  }

  /** Every test class in the `org.automation.ui` package goes down the UI path. */
  lemma UiPackageDispatchesToUi(result: TestResult)
    requires "org.automation.ui." <= result.className
    ensures TypeOf(result) == UI
  {
    assert result.className[14..18] == ".ui.";
    ContainsAt(result.className, ".ui.", 14);
  }

  function TypeName(t: TestType): string
  {
    match t
    case UI => "UI"
    case API => "API"
  }

  // ---------- Rows of the three tables ----------

  /** A row of `execution_log`. */
  datatype LogRow = LogRow(
    testName: string,
    status: string,
    testType: string,
    usId: string,
    tcId: string,
    artifact: string,
    executionTime: string)
  {
    predicate WellFormed()
    {
      && |usId| <= MaxUsIdLength && |tcId| <= MaxTcIdLength
      && (status == "PASS" || status == "FAIL")
      && (testType == "UI" || testType == "API")
    }
  }

  /** A row of `ui_tests`. */
  datatype UiRow = UiRow(
    usId: string,
    testCaseId: string,
    name: string,
    status: string,
    executionTime: string,
    artifact: string)
  {
    predicate WellFormed()
    {
      |usId| <= MaxUsIdLength && |testCaseId| <= MaxTcIdLength && (status == "PASS" || status == "FAIL")
    }
  }

  /** A row of `api_responses`. */
  datatype ApiRow = ApiRow(
    usId: string,
    testCaseId: string,
    name: string,
    status: string,
    executionTime: string,
    requestPayload: string,
    responseBody: string,
    artifact: string)
  {
    predicate WellFormed()
    {
      |usId| <= MaxUsIdLength && |testCaseId| <= MaxTcIdLength && (status == "PASS" || status == "FAIL")
    }
  }

  /** A detail row describes the same test as its log row: same ids, name, status and artifact. */
  predicate UiCorrelates(log: LogRow, detail: UiRow)
  {
    && log.usId == detail.usId && log.tcId == detail.testCaseId && log.testName == detail.name
    && log.status == detail.status && log.artifact == detail.artifact && log.testType == "UI"
  }

  predicate ApiCorrelates(log: LogRow, detail: ApiRow)
  {
    && log.usId == detail.usId && log.tcId == detail.testCaseId && log.testName == detail.name
    && log.status == detail.status && log.artifact == detail.artifact && log.testType == "API"
  }

  /** The `execution_log` row written for `result`. */
  function LogRowFor(result: TestResult, testType: TestType, artifact: string, time: string): (row: LogRow)
    ensures row.WellFormed()
    ensures row.status == "PASS" <==> result.IsSuccess()
    ensures row.testType == "UI" <==> testType == UI
  {
    LogRow(result.name, StatusOf(result), TypeName(testType), UsIdFor(result), TcIdFor(result), artifact, time)
  }

  /** The `ui_tests` row written for `result`; it matches the log row of the same test. */
  function UiRowFor(result: TestResult, artifact: string, time: string): (row: UiRow)
    ensures row.WellFormed()
    ensures forall logTime :: UiCorrelates(LogRowFor(result, UI, artifact, logTime), row)
  {
    UiRow(UsIdFor(result), TcIdFor(result), result.name, StatusOf(result), time, artifact)
  }

  /** The request text stored for an API test: the `requestPayload` attribute, else "{}". */
  function RequestOf(result: TestResult): string
  {
    result.AttributeOr("requestPayload", EmptyObject)
  }

  /** The response text stored for an API test: the `responseBody` attribute, else "{}". */
  function ResponseOf(result: TestResult): string
  {
    result.AttributeOr("responseBody", EmptyObject)
  }

  /** The `api_responses` row written for `result`; it matches the log row of the same test. */
  function ApiRowFor(result: TestResult, artifact: string, time: string): (row: ApiRow)
    ensures row.WellFormed()
    ensures forall logTime :: ApiCorrelates(LogRowFor(result, API, artifact, logTime), row)
    ensures "requestPayload" !in result.attributes ==> row.requestPayload == EmptyObject
    ensures "responseBody" !in result.attributes ==> row.responseBody == EmptyObject
  {
    ApiRow(UsIdFor(result), TcIdFor(result), result.name, StatusOf(result), time,
           RequestOf(result), ResponseOf(result), artifact)
  }

  // ---------- Artifact capture outcomes ----------

  /** The stored files: a screenshot image (its bytes are not modelled) or an API capture. */
  datatype ArtifactFile = ScreenshotImage | ApiCapture(content: string)

  /**
   * The path `saveScreenshot` returns: the screenshot path once it has been assigned, which
   * needs the directory, a driver and the capture to succeed; "" otherwise. The file write
   * comes after the assignment, so its failure does not matter here.
   */
  function ScreenshotOutcome(testName: string, env: Environment): (path: string)
    ensures path == "" <==> !(env.dirOk && env.driverPresent && env.captureOk)
    ensures path != "" ==> path == ScreenshotPath(testName, env.artifactStamp)
  {
    if env.dirOk && env.driverPresent && env.captureOk then ScreenshotPath(testName, env.artifactStamp) else ""
  }

  /** The path `saveAPIArtifact` returns: the artifact path once the directory exists, else "". */
  function ApiArtifactOutcome(testName: string, env: Environment): (path: string)
    ensures path == "" <==> !env.dirOk
    ensures path != "" ==> path == ApiArtifactPath(testName, env.artifactStamp)
  {
    if env.dirOk then ApiArtifactPath(testName, env.artifactStamp) else ""
  }

  /** The artifact path recorded for `result`, chosen by its category. */
  function ArtifactPathFor(result: TestResult, env: Environment): string
  {
    match TypeOf(result)
    case UI => ScreenshotOutcome(result.name, env)
    case API => ApiArtifactOutcome(result.name, env)
  }

  /** The artifact files after capturing the artifact of `result`: one file at most is (over)written. */
  function ArtifactFilesAfter(files: map<string, ArtifactFile>, result: TestResult, env: Environment): (r: map<string, ArtifactFile>)
    ensures forall p :: p in files && p != ArtifactPathFor(result, env) ==> p in r && r[p] == files[p]
    ensures r.Keys <= files.Keys + {ArtifactPathFor(result, env)}
    ensures r != files ==> ArtifactPathFor(result, env) != "" && env.writeOk
  {
    var path := ArtifactPathFor(result, env);
    if path == "" || !env.writeOk then files
    else match TypeOf(result)
      case UI => files[path := ScreenshotImage]
      case API => files[path := ApiCapture(ApiArtifactContent(result.name, env.artifactStamp, RequestOf(result), ResponseOf(result)))]
  }

  // ---------- The order of external effects ----------

  datatype Table = ExecutionLogTable | UiTestsTable | ApiResponsesTable

  /** An external call the listener attempts, whether or not it then succeeds. */
  datatype Step = CreateDirectories(dir: string) | TakeScreenshot | WriteFile(path: string) | InsertRow(table: Table)

  function DetailTable(t: TestType): Table
  {
    match t
    case UI => UiTestsTable
    case API => ApiResponsesTable
  }

  function ScreenshotSteps(testName: string, env: Environment): seq<Step>
  {
    [CreateDirectories(ScreenshotDir)]
    + (if env.dirOk && env.driverPresent then [TakeScreenshot] else [])
    + (if env.dirOk && env.driverPresent && env.captureOk then [WriteFile(ScreenshotPath(testName, env.artifactStamp))] else [])
  }

  function ApiArtifactSteps(testName: string, env: Environment): seq<Step>
  {
    [CreateDirectories(ApiArtifactDir)]
    + (if env.dirOk then [WriteFile(ApiArtifactPath(testName, env.artifactStamp))] else [])
  }

  /**
   * The calls attempted for one finished test: artifact capture first, then exactly one
   * `execution_log` insert, then exactly one insert into the detail table of its category.
   */
  function OutcomeSteps(result: TestResult, env: Environment): (steps: seq<Step>)
    ensures |steps| >= 3
    ensures steps[|steps| - 2] == InsertRow(ExecutionLogTable)
    ensures steps[|steps| - 1] == InsertRow(DetailTable(TypeOf(result)))
    ensures forall i :: 0 <= i < |steps| - 2 ==> !steps[i].InsertRow?
  {
    var capture := match TypeOf(result)
      case UI => ScreenshotSteps(result.name, env)
      case API => ApiArtifactSteps(result.name, env);
    capture + [InsertRow(ExecutionLogTable), InsertRow(DetailTable(TypeOf(result)))]
  }

  /** For a UI test the outcome is that of the screenshot capture. */
  lemma UiOutcome(files: map<string, ArtifactFile>, result: TestResult, env: Environment)
    requires TypeOf(result) == UI
    ensures ArtifactPathFor(result, env) == ScreenshotOutcome(result.name, env)
    ensures OutcomeSteps(result, env) == ScreenshotSteps(result.name, env) + [InsertRow(ExecutionLogTable), InsertRow(UiTestsTable)]
    ensures ArtifactFilesAfter(files, result, env) ==
      if ScreenshotOutcome(result.name, env) != "" && env.writeOk
      then files[ScreenshotOutcome(result.name, env) := ScreenshotImage]
      else files
  {
  }

  /** For an API test the outcome is that of the request/response capture. */
  lemma ApiOutcome(files: map<string, ArtifactFile>, result: TestResult, env: Environment)
    requires TypeOf(result) == API
    ensures ArtifactPathFor(result, env) == ApiArtifactOutcome(result.name, env)
    ensures OutcomeSteps(result, env) == ApiArtifactSteps(result.name, env) + [InsertRow(ExecutionLogTable), InsertRow(ApiResponsesTable)]
    ensures ArtifactFilesAfter(files, result, env) ==
      if ApiArtifactOutcome(result.name, env) != "" && env.writeOk
      then files[ApiArtifactOutcome(result.name, env) :=
             ApiCapture(ApiArtifactContent(result.name, env.artifactStamp, RequestOf(result), ResponseOf(result)))]
      else files
  {
  }

  // ---------- The listener ----------

  class TestSuiteListener {
    var executionLog: seq<LogRow>
    var uiTests: seq<UiRow>
    var apiResponses: seq<ApiRow>
    var artifactFiles: map<string, ArtifactFile>
    /** Every external call attempted so far, in order. */
    ghost var trace: seq<Step>

    /** Every stored row respects the length bounds and carries PASS or FAIL. */
    ghost predicate Valid()
      reads this
    {
      && (forall i :: 0 <= i < |executionLog| ==> executionLog[i].WellFormed())
      && (forall i :: 0 <= i < |uiTests| ==> uiTests[i].WellFormed())
      && (forall i :: 0 <= i < |apiResponses| ==> apiResponses[i].WellFormed())
    }

    constructor ()
      ensures Valid()
      ensures executionLog == [] && uiTests == [] && apiResponses == []
      ensures artifactFiles == map[] && trace == []
    {
      executionLog, uiTests, apiResponses := [], [], [];
      artifactFiles := map[];
      trace := [];
    }

    /** `insertExecutionLog`: truncates both ids again and appends one row; a failed insert is swallowed. */
    method InsertExecutionLog(testName: string, status: string, testType: string,
                              usId: Option<string>, tcId: Option<string>, artifact: string,
                              executionTime: string, insertOk: bool)
      modifies this
      ensures executionLog == old(executionLog) +
        (if insertOk
         then [LogRow(testName, status, testType, Truncate(usId, MaxUsIdLength), Truncate(tcId, MaxTcIdLength), artifact, executionTime)]
         else [])
      ensures trace == old(trace) + [InsertRow(ExecutionLogTable)]
      ensures uiTests == old(uiTests) && apiResponses == old(apiResponses) && artifactFiles == old(artifactFiles)
    {
      var us := Truncate(usId, MaxUsIdLength);
      var tc := Truncate(tcId, MaxTcIdLength);
      trace := trace + [InsertRow(ExecutionLogTable)];
      if insertOk {
        executionLog := executionLog + [LogRow(testName, status, testType, us, tc, artifact, executionTime)];
      }
    }

    /** `saveScreenshot`: the path is assigned before the file is written, so it survives a failed write. */
    method SaveScreenshot(testName: string, env: Environment) returns (path: string)
      modifies this
      ensures path == ScreenshotOutcome(testName, env)
      ensures artifactFiles == if path != "" && env.writeOk then old(artifactFiles)[path := ScreenshotImage] else old(artifactFiles)
      ensures trace == old(trace) + ScreenshotSteps(testName, env)
      ensures executionLog == old(executionLog) && uiTests == old(uiTests) && apiResponses == old(apiResponses)
    {
      path := "";
      trace := trace + [CreateDirectories(ScreenshotDir)];
      if !env.dirOk {
        return;
      }
      if env.driverPresent {
        trace := trace + [TakeScreenshot];
        if !env.captureOk {
          return;
        }
        var timestamp := env.artifactStamp;
        path := ScreenshotPath(testName, timestamp);
        trace := trace + [WriteFile(path)];
        if env.writeOk {
          artifactFiles := artifactFiles[path := ScreenshotImage];
        }
      }
    }

    /** `saveAPIArtifact`: writes the escaped request/response capture; the path survives a failed write. */
    method SaveApiArtifact(testName: string, request: string, response: string, env: Environment) returns (filePath: string)
      modifies this
      ensures filePath == ApiArtifactOutcome(testName, env)
      ensures artifactFiles == if filePath != "" && env.writeOk
                               then old(artifactFiles)[filePath := ApiCapture(ApiArtifactContent(testName, env.artifactStamp, request, response))]
                               else old(artifactFiles)
      ensures trace == old(trace) + ApiArtifactSteps(testName, env)
      ensures executionLog == old(executionLog) && uiTests == old(uiTests) && apiResponses == old(apiResponses)
    {
      filePath := "";
      trace := trace + [CreateDirectories(ApiArtifactDir)];
      if !env.dirOk {
        return;
      }
      var timestamp := env.artifactStamp;
      filePath := ApiArtifactPath(testName, timestamp);
      var content := ApiArtifactContent(testName, timestamp, request, response);
      trace := trace + [WriteFile(filePath)];
      if env.writeOk {
        artifactFiles := artifactFiles[filePath := ApiCapture(content)];
      }
    }

    /** `saveUITestResult`: screenshot, then the log row, then the `ui_tests` row. */
    method SaveUiTestResult(result: TestResult, env: Environment)
      requires Valid()
      modifies this
      ensures Valid()
      ensures executionLog == old(executionLog) +
        (if env.logInsertOk then [LogRowFor(result, UI, ScreenshotOutcome(result.name, env), env.logTime)] else [])
      ensures uiTests == old(uiTests) +
        (if env.detailInsertOk then [UiRowFor(result, ScreenshotOutcome(result.name, env), env.detailTime)] else [])
      ensures apiResponses == old(apiResponses)
      ensures artifactFiles == if ScreenshotOutcome(result.name, env) != "" && env.writeOk
                               then old(artifactFiles)[ScreenshotOutcome(result.name, env) := ScreenshotImage]
                               else old(artifactFiles)
      ensures trace == old(trace) + ScreenshotSteps(result.name, env) + [InsertRow(ExecutionLogTable), InsertRow(UiTestsTable)]
    {
      var testName := result.name;
      var status := StatusOf(result);
      var usId := RawUsId(result);
      var tcId := RawTcId(result);
      tcId := Truncate(Some(tcId), MaxTcIdLength);
      usId := Truncate(Some(usId), MaxUsIdLength);

      var artifactPath := SaveScreenshot(testName, env);
      TruncateIdempotent(Some(RawUsId(result)), MaxUsIdLength);
      TruncateIdempotent(Some(RawTcId(result)), MaxTcIdLength);
      InsertExecutionLog(testName, status, "UI", Some(usId), Some(tcId), artifactPath, env.logTime, env.logInsertOk);

      trace := trace + [InsertRow(UiTestsTable)];
      if env.detailInsertOk {
        uiTests := uiTests + [UiRow(usId, tcId, testName, status, env.detailTime, artifactPath)];
      }
    }

    /** `saveAPITestResult`: API artifact, then the log row, then the `api_responses` row. */
    method SaveApiTestResult(result: TestResult, env: Environment)
      requires Valid()
      modifies this
      ensures Valid()
      ensures executionLog == old(executionLog) +
        (if env.logInsertOk then [LogRowFor(result, API, ApiArtifactOutcome(result.name, env), env.logTime)] else [])
      ensures apiResponses == old(apiResponses) +
        (if env.detailInsertOk then [ApiRowFor(result, ApiArtifactOutcome(result.name, env), env.detailTime)] else [])
      ensures uiTests == old(uiTests)
      ensures artifactFiles == if ApiArtifactOutcome(result.name, env) != "" && env.writeOk
                               then old(artifactFiles)[ApiArtifactOutcome(result.name, env) :=
                                      ApiCapture(ApiArtifactContent(result.name, env.artifactStamp, RequestOf(result), ResponseOf(result)))]
                               else old(artifactFiles)
      ensures trace == old(trace) + ApiArtifactSteps(result.name, env) + [InsertRow(ExecutionLogTable), InsertRow(ApiResponsesTable)]
    {
      var testName := result.name;
      var status := StatusOf(result);
      var usId := RawUsId(result);
      var tcId := RawTcId(result);
      tcId := Truncate(Some(tcId), MaxTcIdLength);
      usId := Truncate(Some(usId), MaxUsIdLength);

      var requestPayload := RequestOf(result);
      var responseBody := ResponseOf(result);

      var artifactPath := SaveApiArtifact(testName, requestPayload, responseBody, env);
      TruncateIdempotent(Some(RawUsId(result)), MaxUsIdLength);
      TruncateIdempotent(Some(RawTcId(result)), MaxTcIdLength);
      InsertExecutionLog(testName, status, "API", Some(usId), Some(tcId), artifactPath, env.logTime, env.logInsertOk);

      trace := trace + [InsertRow(ApiResponsesTable)];
      if env.detailInsertOk {
        apiResponses := apiResponses + [ApiRow(usId, tcId, testName, status, env.detailTime, requestPayload, responseBody, artifactPath)];
      }
    }

    /** What one hook call does: everything is decided by the result's category. */
    twostate predicate Recorded(result: TestResult, env: Environment)
      reads this
    {
      var t := TypeOf(result);
      var path := ArtifactPathFor(result, env);
      && executionLog == old(executionLog) + (if env.logInsertOk then [LogRowFor(result, t, path, env.logTime)] else [])
      && uiTests == old(uiTests) + (if t == UI && env.detailInsertOk then [UiRowFor(result, path, env.detailTime)] else [])
      && apiResponses == old(apiResponses) + (if t == API && env.detailInsertOk then [ApiRowFor(result, path, env.detailTime)] else [])
      && artifactFiles == ArtifactFilesAfter(old(artifactFiles), result, env)
      && trace == old(trace) + OutcomeSteps(result, env)
    }

    /** `onTestSuccess`. */
    method OnTestSuccess(result: TestResult, env: Environment)
      requires Valid()
      modifies this
      ensures Valid() && Recorded(result, env)
    {
      if Contains(result.className, ".ui.") {
        UiOutcome(artifactFiles, result, env);
        SaveUiTestResult(result, env);
      } else {
        ApiOutcome(artifactFiles, result, env);
        SaveApiTestResult(result, env);
      }
    }

    /** `onTestFailure`: the same dispatch as on success. */
    method OnTestFailure(result: TestResult, env: Environment)
      requires Valid()
      modifies this
      ensures Valid() && Recorded(result, env)
    {
      if Contains(result.className, ".ui.") {
        UiOutcome(artifactFiles, result, env);
        SaveUiTestResult(result, env);
      } else {
        ApiOutcome(artifactFiles, result, env);
        SaveApiTestResult(result, env);
      }
    }

    /** `onTestSkipped`: the same dispatch again; the status stored is "FAIL". */
    method OnTestSkipped(result: TestResult, env: Environment)
      requires Valid()
      modifies this
      ensures Valid() && Recorded(result, env)
    {
      if Contains(result.className, ".ui.") {
        UiOutcome(artifactFiles, result, env);
        SaveUiTestResult(result, env);
      } else {
        ApiOutcome(artifactFiles, result, env);
        SaveApiTestResult(result, env);
      }
    }
  }
}
