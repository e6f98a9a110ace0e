# Test-result capture and HTML reporting, modelled in Dafny

The system is a Selenium/TestNG automation suite. Its core has two parts.

`TestSuiteListener` is called by TestNG once for each finished test, whether it succeeded,
failed or was skipped.

- It picks the category from the test class name: UI when the name contains `.ui.`, otherwise API.
- It saves a diagnostic artifact:
  - for a UI test, a screenshot taken from the browser session, if one exists;
  - for an API test, a JSON file holding the request and response, with double quotes escaped.
- It then inserts one row into `execution_log`. The user-story id is the `US_ID`
  attribute, or `N/A` when it is missing, cut to 50 characters. The test-case id is the
  `TC_ID` attribute, else a non-empty method description, else the method name, cut to
  255 characters.
- Finally it inserts one row into `ui_tests` or `api_responses`, by category.
- Every file and SQL failure is swallowed. An artifact path stays empty when the capture
  never got as far as choosing a file name. A file write that fails after the name was
  chosen still returns that path, because the path is assigned before the write.

`HtmlReportGenerator.generateReport` reads every `execution_log` row in a single pass.

- It counts rows whose status equals PASS or FAIL ignoring case. Everything else,
  including NULL, counts as skipped.
- It renders one table row per record.
- It derives the total and the success rate, `pass / total * 100`, which is 0 when there are no rows.
- It writes `artifacts/reports/TestReport_<timestamp>.html`, holding:
  - summary cards;
  - a pie chart of the three counts;
  - the table.

Files:

- `wrappers.dfy`: `Option` (Java `null`) and `Result`.
- `listeners.dfy`, module `Listeners`: the pure helpers and `class TestSuiteListener`. The class has:
  - the three tables as `seq` fields;
  - the artifact directory as a `map` from path to file;
  - a ghost trace of every external call attempted, in order.

  The browser session, the clock and the success of each file or SQL call are inputs,
  held in an `Environment` value.
- `reports.dfy`, module `Reports`: the row loop of `generateReport`. It is a `method` with a
  `while` loop, proved against the specification functions `CountOf`, `RenderRows` and
  `SuccessRate`.
- `pipeline.dfy`, module `Pipeline`: what the report shows about rows the listener wrote.
  The listener stores a skipped test as `FAIL`, so the report's skip counter is always 0
  for such rows.

TestNG reports a skipped test through `onTestSkipped`, but both save methods store
`result.isSuccess() ? "PASS" : "FAIL"`, so a skipped test is stored as `FAIL` and never as
`SKIP`. `Listeners.StatusOf` and `Pipeline.ListenerRowsNeverSkipped` state this.

## Model

| member | source | states |
|---|---|---|
| Listeners.Truncate | src/test/java/org/automation/listeners/TestSuiteListener.java:59-62 | null gives "N/A"; otherwise the result is a prefix of the value of length min(length, max) |
| Listeners.TruncateIdempotent | src/test/java/org/automation/listeners/TestSuiteListener.java:41-42 | truncating an already truncated id again (as `insertExecutionLog` does) changes nothing |
| Listeners.EscapeQuotes | src/test/java/org/automation/listeners/TestSuiteListener.java:92-93 | escaping adds exactly one character per double quote |
| Listeners.UnescapeEscapeQuotes | src/test/java/org/automation/listeners/TestSuiteListener.java:92-93 | escaping is lossless: reading backslash-quote back as a quote returns the original text |
| Listeners.EscapedQuotesArePreceded | src/test/java/org/automation/listeners/TestSuiteListener.java:92-93 | in escaped text every double quote has a backslash directly before it |
| Listeners.ArtifactPath | src/test/java/org/automation/listeners/TestSuiteListener.java:73 | an artifact path lies under its directory and its length is the sum of its parts |
| Listeners.ArtifactPathInjective | src/test/java/org/automation/listeners/TestSuiteListener.java:87 | with fixed-width timestamps, two artifact paths coincide only for the same test name and timestamp |
| Listeners.ApiArtifactHead | src/test/java/org/automation/listeners/TestSuiteListener.java:89-92 | the JSON text before the request has 53 characters besides the name and timestamp |
| Listeners.ApiArtifactTail | src/test/java/org/automation/listeners/TestSuiteListener.java:92-94 | the JSON text after the request has 21 characters besides the escaped response |
| Listeners.ApiArtifactContent | src/test/java/org/automation/listeners/TestSuiteListener.java:89-94 | the length of the API capture in terms of its four inputs and their quote counts |
| Listeners.EscapedTextBeforeKey | src/test/java/org/automation/listeners/TestSuiteListener.java:92-93 | escaped request text followed by the `response` key can be split at one place only |
| Listeners.ApiArtifactContentInjective | src/test/java/org/automation/listeners/TestSuiteListener.java:89-94 | for one test name and timestamp, equal captures have equal requests and equal responses: the capture loses nothing |
| Listeners.StatusOf | src/test/java/org/automation/listeners/TestSuiteListener.java:109 | PASS exactly for a successful test, FAIL exactly otherwise (skips included), never SKIP |
| Listeners.UsIdFor | src/test/java/org/automation/listeners/TestSuiteListener.java:110-118 | exactly the first min(length, 50) characters of `US_ID`, "N/A" when it is absent |
| Listeners.TcIdFor | src/test/java/org/automation/listeners/TestSuiteListener.java:112-117 | exactly the first min(length, 255) characters of the first of `TC_ID`, a non-empty description, the method name |
| Listeners.ContainsIff | src/test/java/org/automation/listeners/TestSuiteListener.java:176 | `contains` holds exactly when the substring occurs at some index |
| Listeners.UiPackageDispatchesToUi | src/test/java/org/automation/listeners/TestSuiteListener.java:176 | every class in the `org.automation.ui` package takes the UI path |
| Listeners.LogRowFor | src/test/java/org/automation/listeners/TestSuiteListener.java:39-53 | the log row respects both length bounds, holds PASS exactly for a success and UI exactly for the UI category |
| Listeners.UiRowFor | src/test/java/org/automation/listeners/TestSuiteListener.java:123-131 | the `ui_tests` row is well formed and agrees with the log row on ids, name, status and artifact |
| Listeners.ApiRowFor | src/test/java/org/automation/listeners/TestSuiteListener.java:151-166 | the `api_responses` row is well formed, agrees with the log row, and holds "{}" for a missing payload or body |
| Listeners.ScreenshotOutcome | src/test/java/org/automation/listeners/TestSuiteListener.java:65-79 | the path is empty exactly when the directory, the driver or the capture is missing, else the screenshot path |
| Listeners.ApiArtifactOutcome | src/test/java/org/automation/listeners/TestSuiteListener.java:82-104 | the path is empty exactly when the directory cannot be created, else the `.json` path |
| Listeners.ArtifactFilesAfter | src/test/java/org/automation/listeners/TestSuiteListener.java:74-98 | at most the one artifact path is written, only when it is non-empty and the write succeeds; every other file is kept |
| Listeners.OutcomeSteps | src/test/java/org/automation/listeners/TestSuiteListener.java:120-124 | artifact capture comes first, then exactly one `execution_log` insert, then one insert into the category's table |
| Listeners.TestSuiteListener.InsertExecutionLog | src/test/java/org/automation/listeners/TestSuiteListener.java:39-57 | appends one row with both ids truncated when the insert succeeds, nothing otherwise; other tables unchanged |
| Listeners.TestSuiteListener.SaveScreenshot | src/test/java/org/automation/listeners/TestSuiteListener.java:65-79 | returns the screenshot outcome; stores the image only if the write succeeds; attempts the calls in source order |
| Listeners.TestSuiteListener.SaveApiArtifact | src/test/java/org/automation/listeners/TestSuiteListener.java:82-104 | returns the artifact outcome; stores the escaped capture only if the write succeeds |
| Listeners.TestSuiteListener.SaveUiTestResult | src/test/java/org/automation/listeners/TestSuiteListener.java:107-135 | keeps every row well formed; appends the log and `ui_tests` rows built from the screenshot outcome; `api_responses` unchanged |
| Listeners.TestSuiteListener.SaveApiTestResult | src/test/java/org/automation/listeners/TestSuiteListener.java:138-171 | keeps every row well formed; appends the log and `api_responses` rows built from the artifact outcome; `ui_tests` unchanged |
| Listeners.TestSuiteListener.OnTestSuccess | src/test/java/org/automation/listeners/TestSuiteListener.java:174-178 | records the result in the tables of its category and nowhere else |
| Listeners.TestSuiteListener.OnTestFailure | src/test/java/org/automation/listeners/TestSuiteListener.java:180-184 | the same recording as on success |
| Listeners.TestSuiteListener.OnTestSkipped | src/test/java/org/automation/listeners/TestSuiteListener.java:186-190 | the same recording again; the status stored is FAIL |
| Reports.ClassifyPassAnyCase | src/test/java/org/automation/reports/HtmlReportGenerator.java:29 | every mix of upper and lower case spelling PASS is counted as a pass |
| Reports.ClassifyFailAnyCase | src/test/java/org/automation/reports/HtmlReportGenerator.java:30 | every mix of upper and lower case spelling FAIL is counted as a failure |
| Reports.ClassifyPassExamples | src/test/java/org/automation/reports/HtmlReportGenerator.java:29 | examples: "PASS", "pass", "Pass" and "pa\u017Fs" (Java folds U+017F to S) are passes |
| Reports.ClassifyFailExamples | src/test/java/org/automation/reports/HtmlReportGenerator.java:30 | examples: "FAIL", "fail" and "fa\u0131l" (Java folds U+0131 to I) are failures |
| Reports.ClassifySkipExamples | src/test/java/org/automation/reports/HtmlReportGenerator.java:27-31 | NULL, "SKIP", "" and "PASSED" all go to the skip counter |
| Reports.StatusClassInjective | src/test/java/org/automation/reports/HtmlReportGenerator.java:28-30 | the three CSS classes differ, so a row's class tells its counter |
| Reports.RowHtmlIsOneRow | src/test/java/org/automation/reports/HtmlReportGenerator.java:33-41 | every rendered record opens with `<tr>` and closes with `</tr>` |
| Reports.RenderRowsAppend | src/test/java/org/automation/reports/HtmlReportGenerator.java:26-44 | the table of a concatenation is the concatenation of the tables, so records keep their order |
| Reports.RenderRowsCons | src/test/java/org/automation/reports/HtmlReportGenerator.java:33-41 | the table starts with the first record's row |
| Reports.RenderRowsEmpty | src/test/java/org/automation/reports/HtmlReportGenerator.java:19 | no records give an empty table |
| Reports.CountOf | src/test/java/org/automation/reports/HtmlReportGenerator.java:27-31 | a counter never exceeds the number of records |
| Reports.CountsPartition | src/test/java/org/automation/reports/HtmlReportGenerator.java:47 | pass + fail + skip equals the number of records |
| Reports.CountsMatchClasses | src/test/java/org/automation/reports/HtmlReportGenerator.java:28-36 | each counter equals the number of table rows carrying its CSS class |
| Reports.CountStep | src/test/java/org/automation/reports/HtmlReportGenerator.java:29-31 | one more record adds one to its own counter and nothing to the others |
| Reports.LoopStep | src/test/java/org/automation/reports/HtmlReportGenerator.java:26-44 | one loop iteration keeps the counters and the table equal to those of the records read so far |
| Reports.SuccessRate | src/test/java/org/automation/reports/HtmlReportGenerator.java:48 | 0 when there are no records; between 0 and 100; 100 exactly when every record passed; 0 exactly when none passed or none exist |
| Reports.ReportFileNameInjective | src/test/java/org/automation/reports/HtmlReportGenerator.java:15-16 | different timestamps give different report files |
| Reports.GenerateReport | src/test/java/org/automation/reports/HtmlReportGenerator.java:14-105 | a failed query or write is an error; otherwise total, counts, rate, chart labels and data, and table equal the specification functions over the records |
| Pipeline.ReadBackClassified | src/test/java/org/automation/reports/HtmlReportGenerator.java:27-31 | a row the listener stored is read back as PASS or FAIL and is counted by its stored status |
| Pipeline.ListenerRowsNeverSkipped | src/test/java/org/automation/listeners/TestSuiteListener.java:109 | over rows the listener wrote, the skip counter is 0 and pass + fail covers every row |

## Left out

- The MySQL connection and JDBC statements are not modelled. Each table is a sequence, and the outcome of each insert is a boolean input. A failed connection and a failed insert are both "no row added".
- Selenium is not modelled: `DriverManager.getDriver()` and `getScreenshotAs`. Whether a driver is present and whether the capture succeeds are inputs. The image bytes are not modelled (`ScreenshotImage`).
- The file system is a map from path to file. A failed write leaves the map unchanged, so a file already at that path survives. In Java, `Files.write` and `FileWriter` truncate an existing file on opening it, so a write that fails afterwards can leave an empty or partial file; that is not modelled.
- `LocalDateTime.now()` and its formatting are not modelled. The three clock readings (artifact stamp, log time, detail time) are inputs.
- Java strings count UTF-16 code units, while Dafny `char` is a Unicode scalar value. Truncation lengths and `substring` agree only on text without supplementary characters.
- Reports.EqualsIgnoreCase: Java's case folding is modelled only for the letters of PASS and FAIL, where it is exact. It is not a general `equalsIgnoreCase`.
- Reports.SuccessRate: computed over exact reals, not IEEE doubles. The `%.2f` rounding on the summary card is not modelled.
- The report's fixed CSS, markup, the Chart.js script and the header row are not modelled. The document is given by its file name, summary numbers, chart labels and data, and table body.
- `timeData` is built in the loop but never written to the report, so it is not modelled.
- `ORDER BY execution_time` is done by the database. The query result is an input, taken in the order given.
- `rs.getInt("id")` returns 0 for a NULL id; the model takes the id as an integer that is always present.
- Java `int` counters and `rs.getInt("id")` wrap around at 2^31; the model's `nat` and `int` do not. No realistic report has that many rows.
- A null test name or null attribute value is not modelled; both are treated as text.
- `onStart` and `onFinish` only print to the console, and `generateHtmlReport` only delegates to `generateReport`, so none of them is modelled.
- Console output and `printStackTrace` are not modelled.
- Several TestNG callbacks may run at the same time on parallel threads. The model treats each hook call as one atomic step.
