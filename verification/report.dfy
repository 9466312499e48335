/**
 * The report rules of src/index.js: after each test, a report is asked for
 * unless the test passed, and the `failReport` task names the report file
 * after the test's full title and fills it with the current store.
 */
module Report {
  import opened Wrappers
  import EventStore

  /** The directory reports go to, and the extension of a report file. */
  const ReportsDir: string := "./cypress/reports/"
  const Extension: string := ".json"

  /** The outcome that needs no report. */
  const Passed: string := "passed"

  /**
   * The `afterEach` hook: the title the `failReport` task is run with, or None
   * when the task is not run.
   */
  function ReportTask(state: string, fullTitle: string): (task: Option<string>)
    ensures task.Some? <==> state != Passed
    ensures task.Some? ==> task.value == fullTitle
  {
    if state != Passed then Some(fullTitle) else None
  }

  /** The report file of a test: the directory, the full title, then `.json`. */
  function ReportPath(title: string): (path: string)
    ensures ReportsDir <= path
    ensures |path| == |ReportsDir| + |title| + |Extension|
    ensures path[|ReportsDir|..|ReportsDir| + |title|] == title
    ensures path[|ReportsDir| + |title|..] == Extension
  {
    ReportsDir + title + Extension
  }

  /** The title a report path was made from, or None for a path no title yields. */
  function TitleOfPath(path: string): Option<string>
  {
    if |ReportsDir| + |Extension| <= |path| && ReportsDir <= path && path[|path| - |Extension|..] == Extension then
      Some(path[|ReportsDir|..|path| - |Extension|])
    else
      None
  }

  /** The title can be read back from its report path. */
  lemma ReportPathRoundTrip(title: string)
    ensures TitleOfPath(ReportPath(title)) == Some(title)
  {
  }

  /** Every path a title can be read from is the report path of that title. */
  lemma TitleOfPathSound(path: string)
    ensures TitleOfPath(path).Some? ==> ReportPath(TitleOfPath(path).value) == path
  {
  }

  /** Distinct titles get distinct report files. */
  lemma ReportPathInjective(title1: string, title2: string)
    ensures ReportPath(title1) == ReportPath(title2) ==> title1 == title2
  {
  }

  /** The serialised document: `{test: {title}, events}`. */
  datatype ReportData = ReportData(title: string, events: EventStore.Store)

  /**
   * The `failReport` task: the file path and the document written there. The
   * document holds the store as it is at that moment, and the store itself is
   * left as it was (clearing is the next test's `beforeEach`).
   */
  method FailReport(events: EventStore.Events, title: string) returns (path: string, data: ReportData)
    ensures path == ReportPath(title) && TitleOfPath(path) == Some(title)
    ensures data.title == title && data.events == events.Snapshot()
  {
    path := ReportPath(title);
    ReportPathRoundTrip(title);
    data := ReportData(title, events.Snapshot());
  }
}
