/**
 * The listener writes `execution_log` rows and the report generator reads them back. This
 * module states what the report shows about rows the listener wrote.
 */
module Pipeline {
  import opened Wrappers
  import Listeners
  import Reports

  /** How the report reads a row the listener wrote; `id` is the key the database assigned. */
  function ReadBack(id: int, row: Listeners.LogRow): Reports.Row
  {
    Reports.Row(id, Some(row.testName), Some(row.status), Some(row.testType),
                Some(row.usId), Some(row.tcId), Some(row.executionTime))
  }

  /** The status text the listener stored in a read-back row is PASS or FAIL. */
  predicate WrittenByListener(r: Reports.Row)
  {
    r.status == Some("PASS") || r.status == Some("FAIL")
  }

  /** The number of rows whose stored status is exactly "PASS". */
  function StoredPasses(rows: seq<Reports.Row>): (n: nat)
    ensures n <= |rows|
  {
    if rows == [] then 0
    else StoredPasses(rows[..|rows| - 1]) + (if rows[|rows| - 1].status == Some("PASS") then 1 else 0)
  }

  /** A well-formed listener row is read back as one the listener wrote, and is counted by its stored status. */
  lemma ReadBackClassified(id: int, row: Listeners.LogRow)
    requires row.WellFormed()
    ensures WrittenByListener(ReadBack(id, row))
    ensures Reports.Classify(ReadBack(id, row).status) == if row.status == "PASS" then Reports.Pass else Reports.Fail
  {
    assert !Reports.SameLetterIgnoringCase("FAIL"[0], "PASS"[0]);
  }

  /**
   * Over rows the listener wrote, the report never counts a skip. Skipped tests were stored
   * as FAIL. The pass counter is the number of PASS rows and the fail counter the rest.
   */
  lemma {:induction false} ListenerRowsNeverSkipped(rows: seq<Reports.Row>)
    requires forall i :: 0 <= i < |rows| ==> WrittenByListener(rows[i])
    ensures Reports.CountOf(rows, Reports.Skip) == 0
    ensures Reports.CountOf(rows, Reports.Pass) == StoredPasses(rows)
    ensures Reports.CountOf(rows, Reports.Fail) == |rows| - StoredPasses(rows)
  {
    if rows != [] {
      var init := rows[..|rows| - 1];
      ListenerRowsNeverSkipped(init);
      var last := rows[|rows| - 1];
      assert WrittenByListener(last);
      assert !Reports.SameLetterIgnoringCase("FAIL"[0], "PASS"[0]);
    }
  }

  /**
   * The scenario of a failed UI test with no browser session: the row is stored with an
   * empty artifact path and status FAIL, and a report over it shows one failure and a
   * success rate of 0.
   */
  method FailedUiTestWithoutDriver(time: string, stamp: string)
  {
    var listener := new Listeners.TestSuiteListener();
    var result := Listeners.TestResult("login_test", "org.automation.ui.LoginTest", Listeners.Failed,
                                        map["US_ID" := "US-1"], None, "login_test");
    var env := Listeners.Environment(false, stamp, time, time, true, true, true, true, true);
    Listeners.UiPackageDispatchesToUi(result);
    listener.OnTestFailure(result, env);

    assert |listener.executionLog| == 1;
    var row := listener.executionLog[0];
    assert row.artifact == "" && row.status == "FAIL" && row.usId == "US-1" && row.testType == "UI";
    assert |listener.uiTests| == 1 && listener.apiResponses == [];

    ReadBackClassified(1, row);
    var rows := [ReadBack(1, row)];
    assert rows[..0] == [];
    var report := Reports.GenerateReport(Some(rows), stamp, true);
    assert report.value.summary.total == 1;
    assert report.value.summary.failed == 1;
    assert report.value.summary.successRate == 0.0;
  }

  /** An empty log yields a report with zero counts, a rate of 0 and an empty table, never an error. */
  method EmptyLogReport(stamp: string)
  {
    var report := Reports.GenerateReport(Some([]), stamp, true);
    assert report.Success?;
    assert report.value.summary == Reports.Summary(0, 0, 0, 0, 0.0);
    assert report.value.tableRows == "";
  }
}
