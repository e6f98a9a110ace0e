/**
 * Report aggregation. `generateReport` reads every `execution_log` row in the order of the
 * query (`ORDER BY execution_time ASC`). In one pass it sorts each row into pass, fail or
 * skip and renders one table row per record. It then derives the total and the success
 * rate and writes one HTML file holding summary cards, a pie chart of the three counts and
 * the table.
 *
 * The database read, the clock and the file write are inputs. The document is given by
 * the values written into it; its fixed CSS, markup and script text are not modelled.
 */
module Reports {
  import opened Wrappers

  const ReportsDir: string := "artifacts/reports/"

  /** A row of `execution_log` as the report reads it; text columns may be SQL NULL (`None`). */
  datatype Row = Row(
    id: int,
    testName: Option<string>,
    status: Option<string>,
    testType: Option<string>,
    usId: Option<string>,
    tcId: Option<string>,
    executionTime: Option<string>)

  /** The three counters a row can fall into. */
  datatype Category = Pass | Fail | Skip

  // ---------- Classifying a status ----------

  /**
   * Java's `equalsIgnoreCase` on one character `c` against the letter `upper`. For ASCII
   * letters this adds the lower-case form. Java also folds U+017F (long s) to 'S', and U+0131
   * (dotless i) and U+0130 (dotted capital I) to 'I'. This is exact for the letters of
   * "PASS" and "FAIL".
   */
  predicate SameLetterIgnoringCase(c: char, upper: char)
  {
    || c == upper
    || ('A' <= upper <= 'Z' && c as int == upper as int + 32)
    || (upper == 'S' && c == '\U{017F}')
    || (upper == 'I' && (c == '\U{0131}' || c == '\U{0130}'))
  }

  /** `word.equalsIgnoreCase(s)` for an upper-case literal `word`; false when `s` is null. */
  predicate EqualsIgnoreCase(word: string, s: Option<string>)
  {
    && s.Some?
    && |s.value| == |word|
    && forall i :: 0 <= i < |word| ==> SameLetterIgnoringCase(s.value[i], word[i])
  }

  /** The counter a status goes to: PASS and FAIL ignoring case, anything else (null too) is a skip. */
  function Classify(status: Option<string>): Category
  {
    if EqualsIgnoreCase("PASS", status) then Pass
    else if EqualsIgnoreCase("FAIL", status) then Fail
    else Skip
  }

  /** PASS is recognised whatever the case, including Java's fold of U+017F (long s) to 'S'. */
  lemma ClassifyPassExamples()
    ensures Classify(Some("PASS")) == Pass && Classify(Some("pass")) == Pass && Classify(Some("Pass")) == Pass
    ensures Classify(Some("pa\U{017F}s")) == Pass
  {
  }

  /** FAIL is recognised whatever the case, including Java's fold of U+0131 (dotless i) to 'I'. */
  lemma ClassifyFailExamples()
    ensures Classify(Some("FAIL")) == Fail && Classify(Some("fail")) == Fail
    ensures Classify(Some("fa\U{0131}l")) == Fail
  {
    assert !SameLetterIgnoringCase("FAIL"[0], "PASS"[0]);
    assert !SameLetterIgnoringCase("fail"[0], "PASS"[0]);
    assert !SameLetterIgnoringCase("fa\U{0131}l"[0], "PASS"[0]);
  }

  /** Any mix of upper- and lower-case letters spelling PASS is counted as a pass. */
  lemma ClassifyPassAnyCase(s: string)
    requires |s| == 4 && forall i :: 0 <= i < 4 ==> s[i] == "PASS"[i] || s[i] == "pass"[i]
    ensures Classify(Some(s)) == Pass
  {
  }

  /** Any mix of upper- and lower-case letters spelling FAIL is counted as a failure. */
  lemma ClassifyFailAnyCase(s: string)
    requires |s| == 4 && forall i :: 0 <= i < 4 ==> s[i] == "FAIL"[i] || s[i] == "fail"[i]
    ensures Classify(Some(s)) == Fail
  {
    assert !SameLetterIgnoringCase(s[0], "PASS"[0]);
  }

  /** Null, "SKIP", the empty text and longer words such as "PASSED" all go to the skip counter. */
  lemma ClassifySkipExamples()
    ensures Classify(Some("SKIP")) == Skip && Classify(None) == Skip
    ensures Classify(Some("PASSED")) == Skip && Classify(Some("")) == Skip
  {
    assert !SameLetterIgnoringCase("SKIP"[0], "PASS"[0]);
    assert !SameLetterIgnoringCase("SKIP"[0], "FAIL"[0]);
  }

  /** The CSS class of a row's status cell. */
  function StatusClass(c: Category): string
  {
    match c
    case Pass => "status-pass"
    case Fail => "status-fail"
    case Skip => "status-skip"
  }

  /** Different counters have different CSS classes, so the class tells which counter a row went to. */
  lemma StatusClassInjective(c: Category, d: Category)
    requires StatusClass(c) == StatusClass(d)
    ensures c == d
  {
  }

  // ---------- Rendering a table row ----------

  function DigitChar(d: nat): char
    requires d < 10
  {
    "0123456789"[d]
  }

  function NatToString(n: nat): string
  {
    if n < 10 then [DigitChar(n)] else NatToString(n / 10) + [DigitChar(n % 10)]
  }

  /** The decimal text `StringBuilder.append(int)` produces. */
  function IntToString(i: int): string
  {
    if i < 0 then "-" + NatToString(-i) else NatToString(i)
  }

  /** `StringBuilder.append(String)`: a null column is rendered as "null". */
  function CellText(v: Option<string>): string
  {
    match v
    case Some(s) => s
    case None => "null"
  }

  /** The text of a `StringBuilder` after appending `parts` in order. */
  function Concat(parts: seq<string>): string
  {
    if parts == [] then "" else parts[0] + Concat(parts[1..])
  }

  /**
   * The pieces appended for one record: seven cells (id, test name, status, type, US_ID,
   * TC_ID, execution time) inside `<tr>`. The status sits in a span carrying the CSS class.
   * Nothing is HTML-escaped.
   */
  function RowParts(r: Row, statusClass: string): seq<string>
  {
    [ "<tr>",
      "<td>", IntToString(r.id), "</td>",
      "<td>", CellText(r.testName), "</td>",
      "<td><span class='", statusClass, "'>", CellText(r.status), "</span></td>",
      "<td>", CellText(r.testType), "</td>",
      "<td>", CellText(r.usId), "</td>",
      "<td>", CellText(r.tcId), "</td>",
      "<td>", CellText(r.executionTime), "</td>",
      "</tr>" ]
  }

  /** One `<tr>` of the table, given the CSS class chosen for its status. */
  function RowHtml(r: Row, statusClass: string): string
  {
    Concat(RowParts(r, statusClass))
  }

  /** The text built from `parts` ends with the last part appended. */
  lemma {:induction false} ConcatEndsWithLast(parts: seq<string>)
    requires parts != []
    ensures |parts[|parts| - 1]| <= |Concat(parts)|
    ensures Concat(parts)[|Concat(parts)| - |parts[|parts| - 1]|..] == parts[|parts| - 1]
  {
    if |parts| > 1 {
      ConcatEndsWithLast(parts[1..]);
    } else {
      assert Concat(parts) == parts[0] + Concat([]);
    }
  }

  /** Every rendered row is one `<tr>` element: it opens with `<tr>` and closes with `</tr>`. */
  lemma RowHtmlIsOneRow(r: Row, statusClass: string)
    ensures "<tr>" <= RowHtml(r, statusClass)
    ensures |RowHtml(r, statusClass)| >= 5
    ensures RowHtml(r, statusClass)[|RowHtml(r, statusClass)| - 5..] == "</tr>"
  {
    var parts := RowParts(r, statusClass);
    ConcatEndsWithLast(parts);
    assert Concat(parts) == parts[0] + Concat(parts[1..]);
  }

  /** The CSS class a row is rendered with. */
  function ClassOf(r: Row): string
  {
    StatusClass(Classify(r.status))
  }

  function RenderRow(r: Row): string
  {
    RowHtml(r, ClassOf(r))
  }

  /** The rendered rows one after the other, in order. */
  function ConcatMap(rows: seq<Row>, render: Row -> string): string
  {
    if rows == [] then "" else ConcatMap(rows[..|rows| - 1], render) + render(rows[|rows| - 1])
  }

  /** The table body: one rendered row per record, in the order they were read. */
  function RenderRows(rows: seq<Row>): string
  {
    ConcatMap(rows, RenderRow)
  }

  lemma {:induction false} ConcatMapAppend(a: seq<Row>, b: seq<Row>, render: Row -> string)
    ensures ConcatMap(a + b, render) == ConcatMap(a, render) + ConcatMap(b, render)
    decreases |b|
  {
    if b == [] {
      assert a + b == a;
    } else {
      var b' := b[..|b| - 1];
      assert (a + b)[..|a + b| - 1] == a + b';
      ConcatMapAppend(a, b', render);
    }
  }

  lemma ConcatMapCons(rows: seq<Row>, render: Row -> string)
    requires rows != []
    ensures ConcatMap(rows, render) == render(rows[0]) + ConcatMap(rows[1..], render)
  {
    assert rows == [rows[0]] + rows[1..];
    ConcatMapAppend([rows[0]], rows[1..], render);
    assert [rows[0]][..0] == [];
  }

  lemma ConcatMapPrefix(rows: seq<Row>, i: nat, render: Row -> string)
    requires i < |rows|
    ensures ConcatMap(rows[..i + 1], render) == ConcatMap(rows[..i], render) + render(rows[i])
  {
    assert rows[..i + 1][..i] == rows[..i];
  }

  /** Rendering distributes over concatenation, so the table keeps the order of the records. */
  lemma RenderRowsAppend(a: seq<Row>, b: seq<Row>)
    ensures RenderRows(a + b) == RenderRows(a) + RenderRows(b)
  {
    ConcatMapAppend(a, b, RenderRow);
  }

  /** The table starts with the first record's row and goes on with the rest. */
  lemma RenderRowsCons(rows: seq<Row>)
    requires rows != []
    ensures RenderRows(rows) == RenderRow(rows[0]) + RenderRows(rows[1..])
  {
    ConcatMapCons(rows, RenderRow);
  }

  /** An empty log renders an empty table. */
  lemma RenderRowsEmpty()
    ensures RenderRows([]) == ""
  {
  }

  // ---------- Counting ----------

  /** The number of rows that fall into counter `c`. */
  function CountOf(rows: seq<Row>, c: Category): (n: nat)
    ensures n <= |rows|
  {
    if rows == [] then 0
    else CountOf(rows[..|rows| - 1], c) + (if Classify(rows[|rows| - 1].status) == c then 1 else 0)
  }

  /** Every row falls into exactly one counter. */
  lemma {:induction false} CountsPartition(rows: seq<Row>)
    ensures CountOf(rows, Pass) + CountOf(rows, Fail) + CountOf(rows, Skip) == |rows|
  {
    if rows != [] {
      CountsPartition(rows[..|rows| - 1]);
    }
  }

  /** The number of rows rendered with CSS class `cls`. */
  function CountWithClass(rows: seq<Row>, cls: string): nat
  {
    if rows == [] then 0
    else CountWithClass(rows[..|rows| - 1], cls) + (if ClassOf(rows[|rows| - 1]) == cls then 1 else 0)
  }

  /** Each counter equals the number of table rows that carry its CSS class. */
  lemma {:induction false} CountsMatchClasses(rows: seq<Row>, c: Category)
    ensures CountOf(rows, c) == CountWithClass(rows, StatusClass(c))
  {
    if rows != [] {
      CountsMatchClasses(rows[..|rows| - 1], c);
      var d := Classify(rows[|rows| - 1].status);
      if StatusClass(d) == StatusClass(c) {
        StatusClassInjective(d, c);
      }
    }
  }

  /** What the report loop keeps after reading `rows[..i]`: the counters and the table so far. */
  ghost predicate LoopInvariant(rows: seq<Row>, i: nat, passCount: nat, failCount: nat, skipCount: nat, tableRows: string)
  {
    && i <= |rows|
    && passCount == CountOf(rows[..i], Pass)
    && failCount == CountOf(rows[..i], Fail)
    && skipCount == CountOf(rows[..i], Skip)
    && passCount + failCount + skipCount == i
    && tableRows == RenderRows(rows[..i])
  }

  /** Reading one more row adds one to the counter that row falls into, and nothing to the others. */
  lemma CountStep(rows: seq<Row>, i: nat, c: Category)
    requires i < |rows|
    ensures CountOf(rows[..i + 1], c) == CountOf(rows[..i], c) + (if Classify(rows[i].status) == c then 1 else 0)
  {
    assert rows[..i + 1][..i] == rows[..i];
  }

  /**
   * One step of the report loop. Reading row `i` adds one to its own counter only, and it
   * appends that row rendered with the CSS class of that counter.
   */
  lemma LoopStep(rows: seq<Row>, i: nat, passCount: nat, failCount: nat, skipCount: nat, tableRows: string,
                 c: Category, passCount': nat, failCount': nat, skipCount': nat, statusClass: string, tableRows': string)
    requires i < |rows| && LoopInvariant(rows, i, passCount, failCount, skipCount, tableRows)
    requires c == Classify(rows[i].status) && statusClass == StatusClass(c)
    requires passCount' == passCount + (if c == Pass then 1 else 0)
    requires failCount' == failCount + (if c == Fail then 1 else 0)
    requires skipCount' == skipCount + (if c == Skip then 1 else 0)
    requires tableRows' == tableRows + RowHtml(rows[i], statusClass)
    ensures LoopInvariant(rows, i + 1, passCount', failCount', skipCount', tableRows')
  {
    CountStep(rows, i, Pass);
    CountStep(rows, i, Fail);
    CountStep(rows, i, Skip);
    ConcatMapPrefix(rows, i, RenderRow);
  }

  // ---------- Success rate and output name ----------

  /** `total == 0 ? 0 : passCount / total * 100`, over the reals. */
  function SuccessRate(passCount: nat, total: nat): (rate: real)
    ensures total == 0 ==> rate == 0.0
    ensures passCount <= total ==> 0.0 <= rate <= 100.0
    ensures passCount <= total ==> (rate == 100.0 <==> 0 < total && passCount == total)
    ensures rate == 0.0 <==> total == 0 || passCount == 0
  {
    if total == 0 then 0.0 else (passCount as real / total as real) * 100.0
  }

  /** `"artifacts/reports/TestReport_" + timestamp + ".html"`. */
  function ReportFileName(timestamp: string): (name: string)
    ensures ReportsDir <= name
    ensures name[|ReportsDir|..] == "TestReport_" + timestamp + ".html"
  {
    ReportsDir + "TestReport_" + timestamp + ".html"
  }

  /** Each timestamp gives its own report file: different timestamps never share a name. */
  lemma ReportFileNameInjective(t1: string, t2: string)
    requires ReportFileName(t1) == ReportFileName(t2)
    ensures t1 == t2
  {
    var n1, n2 := ReportFileName(t1), ReportFileName(t2);
    assert |t1| == |t2|;
    assert t1 == n1[|ReportsDir| + 11..|n1| - 5];
    assert t2 == n2[|ReportsDir| + 11..|n2| - 5];
  }

  // ---------- The report ----------

  /** The numbers on the summary cards, in the order shown. */
  datatype Summary = Summary(total: nat, passed: nat, failed: nat, skipped: nat, successRate: real)

  /** What the report file holds: its name, the summary cards, the chart's labels and data, and the table body. */
  datatype Report = Report(
    fileName: string,
    summary: Summary,
    chartLabels: seq<string>,
    chartData: seq<nat>,
    tableRows: string)

  datatype ReportError =
    | DatabaseUnavailable  // the connection or the query threw
    | WriteFailed          // the report file could not be written

  /**
   * `generateReport`. `query` is the result of the query, in its order, or `None` when the
   * connection or the query fails. `timestamp` is the clock reading used in the file name,
   * and `writeOk` says whether the report file can be written.
   */
  method GenerateReport(query: Option<seq<Row>>, timestamp: string, writeOk: bool)
    returns (r: Result<Report, ReportError>)
    ensures query.None? ==> r == Failure(DatabaseUnavailable)
    ensures query.Some? && !writeOk ==> r == Failure(WriteFailed)
    ensures query.Some? && writeOk ==> r.Success?
    ensures r.Success? ==>
      var rows, rep := query.value, r.value;
      && rep.fileName == ReportFileName(timestamp)
      && rep.summary.total == |rows|
      && rep.summary.passed == CountOf(rows, Pass)
      && rep.summary.failed == CountOf(rows, Fail)
      && rep.summary.skipped == CountOf(rows, Skip)
      && rep.summary.successRate == SuccessRate(rep.summary.passed, rep.summary.total)
      && 0.0 <= rep.summary.successRate <= 100.0
      && rep.chartLabels == ["PASS", "FAIL", "SKIP"]
      && rep.chartData == [rep.summary.passed, rep.summary.failed, rep.summary.skipped]
      && rep.tableRows == RenderRows(rows)
  {
    var fileName := ReportFileName(timestamp);

    if query.None? {
      return Failure(DatabaseUnavailable);
    }
    var rows := query.value;

    var passCount, failCount, skipCount := 0, 0, 0;
    var tableRows := "";
    var i := 0;
    while i < |rows|
      invariant LoopInvariant(rows, i, passCount, failCount, skipCount, tableRows)
    {
      var row := rows[i];
      var status := row.status;
      ghost var c := Classify(status);
      ghost var passCount0, failCount0, skipCount0, tableRows0 := passCount, failCount, skipCount, tableRows;
      var statusClass := "status-skip";
      if EqualsIgnoreCase("PASS", status) {
        statusClass := "status-pass";
        passCount := passCount + 1;
      } else if EqualsIgnoreCase("FAIL", status) {
        statusClass := "status-fail";
        failCount := failCount + 1;
      } else {
        skipCount := skipCount + 1;
      }
      tableRows := tableRows + RowHtml(row, statusClass);
      LoopStep(rows, i, passCount0, failCount0, skipCount0, tableRows0, c, passCount, failCount, skipCount, statusClass, tableRows);
      i := i + 1;
    }
    assert rows[..i] == rows;

    var total := passCount + failCount + skipCount;
    var successRate := if total == 0 then 0.0 else (passCount as real / total as real) * 100.0;

    if !writeOk {
      return Failure(WriteFailed);
    }
    var summary := Summary(total, passCount, failCount, skipCount, successRate);
    r := Success(Report(fileName, summary, ["PASS", "FAIL", "SKIP"], [passCount, failCount, skipCount], tableRows));
  }
}
