/** The result store of backend/app/services/database.py (`DatabaseService`): one
    `test_runs` table whose rows the service inserts, looks up, lists newest first,
    aggregates and purges. The table is a sequence of rows in insertion order; each SQL
    statement is a function over that sequence, and the service's methods apply them. */
module Database {
  import opened Wrappers
  import opened Text
  import opened Sequences
  import opened Metrics
  import opened Anomaly

  /** A point in time. The source stores ISO-8601 text; its order is the order of time. */
  type Timestamp = int

  // ----- where the database lives -----

  const SqliteScheme: string := "sqlite:///"
  const DefaultDatabasePath: string := "./loadgenie.db"

  /** `__init__`: an explicit non-empty path wins; otherwise the path after "sqlite:///"
      in the configured URL; otherwise the default file. */
  function DatabasePath(dbPath: Option<string>, databaseUrl: string): string {
    if dbPath.Some? && dbPath.value != "" then dbPath.value
    else if StartsWith(databaseUrl, SqliteScheme) then databaseUrl[|SqliteScheme|..]
    else DefaultDatabasePath
  }

  /** An empty explicit path counts as none, a SQLite URL gives back the path it was
      built from, and any other URL falls back to the default file. */
  lemma DatabasePathChoice(explicit: string, databaseUrl: string, path: string)
    ensures explicit != "" ==> DatabasePath(Some(explicit), databaseUrl) == explicit
    ensures DatabasePath(Some(""), databaseUrl) == DatabasePath(None, databaseUrl)
    ensures DatabasePath(None, SqliteScheme + path) == path
    ensures !StartsWith(databaseUrl, SqliteScheme) ==> DatabasePath(None, databaseUrl) == DefaultDatabasePath
  {
    assert (SqliteScheme + path)[..|SqliteScheme|] == SqliteScheme;
    assert (SqliteScheme + path)[|SqliteScheme|..] == path;
  }

  // ----- what is stored -----

  /** What `run_test` hands to `save_test_result`. */
  datatype TestSummary = TestSummary(
    testId: string,
    timestamp: Timestamp,
    executionTime: real,
    script: string,
    options: map<string, string>,
    metrics: Metrics,
    analysis: Report,
    rawOutput: SummaryExport,
    console: string)

  /** The seven metric columns; each may be NULL. */
  datatype MetricColumns = MetricColumns(
    responseTimeAvg: Option<real>,
    responseTimeP95: Option<real>,
    errorRate: Option<real>,
    requestsPerSecond: Option<real>,
    virtualUsers: Option<real>,
    totalRequests: Option<int>,
    durationMs: Option<real>)

  /** One row of `test_runs`. Nullable columns are options; the JSON-text columns hold
      the decoded value. */
  datatype Row = Row(
    id: int,
    testId: string,
    timestamp: Timestamp,
    executionTime: real,
    script: string,
    options: Option<map<string, string>>,
    metrics: MetricColumns,
    anomaliesDetected: Option<bool>,
    severity: Option<Severity>,
    issues: Option<seq<Issue>>,
    recommendations: Option<seq<Recommendation>>,
    confidence: Option<real>,
    rawOutput: Option<SummaryExport>,
    console: Option<string>)

  function Columns(m: Metrics): MetricColumns {
    MetricColumns(Some(m.responseTimeAvg), Some(m.responseTimeP95), Some(m.errorRate),
                  Some(m.requestsPerSecond), Some(m.virtualUsers), Some(m.totalRequests),
                  Some(m.durationMs))
  }

  /** The row the `INSERT` of `save_test_result` writes, with the id SQLite assigns. */
  function EncodeRow(id: int, s: TestSummary): Row {
    Row(id, s.testId, s.timestamp, s.executionTime, s.script, Some(s.options), Columns(s.metrics),
        Some(s.analysis.anomaliesDetected), Some(s.analysis.severity), Some(s.analysis.issues),
        Some(s.analysis.recommendations), Some(s.analysis.confidence), Some(s.rawOutput),
        Some(s.console))
  }

  /** The "anomaly_analysis" part of a row read back: a NULL flag reads as false and
      NULL issue or recommendation lists as empty lists. */
  datatype AnalysisView = AnalysisView(
    anomaliesDetected: bool,
    severity: Option<Severity>,
    issues: seq<Issue>,
    recommendations: seq<Recommendation>,
    confidence: Option<real>)

  /** `_row_to_dict`: a complete stored test. */
  datatype StoredTest = StoredTest(
    testId: string,
    timestamp: Timestamp,
    executionTime: real,
    script: string,
    options: map<string, string>,
    metrics: MetricColumns,
    analysis: AnalysisView,
    rawOutput: SummaryExport,
    console: Option<string>)

  /** `_row_to_summary_dict`: the history view of a stored test. */
  datatype TestOverview = TestOverview(
    testId: string,
    timestamp: Timestamp,
    executionTime: real,
    metrics: MetricColumns,
    analysis: AnalysisView)

  function AnalysisOf(r: Row): AnalysisView {
    AnalysisView(r.anomaliesDetected == Some(true), r.severity, r.issues.GetOr([]),
                 r.recommendations.GetOr([]), r.confidence)
  }

  function RowToDict(r: Row): StoredTest {
    StoredTest(r.testId, r.timestamp, r.executionTime, r.script, r.options.GetOr(map[]),
               r.metrics, AnalysisOf(r), r.rawOutput.GetOr(SummaryExport(None)), r.console)
  }

  function RowToSummary(r: Row): TestOverview {
    TestOverview(r.testId, r.timestamp, r.executionTime, r.metrics, AnalysisOf(r))
  }

  /** A saved summary reads back as saved: every field survives the row, the metrics
      become non-NULL columns, and the summary view is the full view without script,
      options, raw output and console. */
  lemma StoredRoundTrip(id: int, s: TestSummary)
    ensures var d := RowToDict(EncodeRow(id, s));
      d.testId == s.testId && d.timestamp == s.timestamp && d.executionTime == s.executionTime
      && d.script == s.script && d.options == s.options && d.rawOutput == s.rawOutput
      && d.console == Some(s.console) && d.metrics == Columns(s.metrics)
      && d.analysis == AnalysisView(s.analysis.anomaliesDetected, Some(s.analysis.severity),
                                    s.analysis.issues, s.analysis.recommendations,
                                    Some(s.analysis.confidence))
    ensures var d := RowToDict(EncodeRow(id, s));
      RowToSummary(EncodeRow(id, s)) == TestOverview(d.testId, d.timestamp, d.executionTime, d.metrics, d.analysis)
  {
  }

  // ----- the table's integrity -----

  /** Row `a` was inserted before row `b`: a smaller id and a different test id. */
  predicate Precedes(a: Row, b: Row) {
    a.id < b.id && a.testId != b.testId
  }

  /** What the schema guarantees: `id` is an increasing AUTOINCREMENT key, positive and
      no larger than the last id handed out (0 before any), and `test_id` is UNIQUE. */
  predicate WellFormed(rows: seq<Row>, lastId: int) {
    0 <= lastId && SortedBy(rows, Precedes) && forall r :: r in rows ==> 1 <= r.id <= lastId
  }

  /** Deleting rows keeps the table well formed. */
  lemma FilterWellFormed(rows: seq<Row>, lastId: int, p: Row -> bool)
    requires WellFormed(rows, lastId)
    ensures WellFormed(Filter(rows, p), lastId)
  {
    FilterSorted(rows, p, Precedes);
  }

  // ----- lookup by test id -----

  predicate HasTestId(rows: seq<Row>, testId: string) {
    exists r :: r in rows && r.testId == testId
  }

  /** `SELECT * FROM test_runs WHERE test_id = ?`: the row with that test id, if any. */
  function FindByTestId(rows: seq<Row>, testId: string): (found: Option<Row>)
    ensures found.Some? ==> found.value in rows && found.value.testId == testId
    ensures found.None? <==> !HasTestId(rows, testId)
  {
    if rows == [] then None
    else if rows[0].testId == testId then Some(rows[0])
    else
      assert rows == [rows[0]] + rows[1..];
      FindByTestId(rows[1..], testId)
  }

  /** Appending a row for a new test id makes exactly that row found for its id and
      changes nothing for any other id. */
  lemma {:induction false} FindAppended(rows: seq<Row>, row: Row, testId: string)
    requires !HasTestId(rows, row.testId)
    ensures FindByTestId(rows + [row], testId)
      == if testId == row.testId then Some(row) else FindByTestId(rows, testId)
  {
    if rows == [] {
      assert rows + [row] == [row];
    } else {
      assert (rows + [row])[1..] == rows[1..] + [row];
      assert !HasTestId(rows[1..], row.testId) by {
        forall r | r in rows[1..] ensures r.testId != row.testId {
          assert r in rows;
        }
      }
      FindAppended(rows[1..], row, testId);
    }
  }

  // ----- newest first -----

  predicate Later(a: Row, b: Row) {
    a.timestamp >= b.timestamp
  }

  /** `ORDER BY timestamp DESC`. */
  function NewestFirst(rows: seq<Row>): seq<Row> {
    SortBy(rows, Later)
  }

  /** The newest-first order holds the same rows, each no older than the next. */
  lemma NewestFirstOrdered(rows: seq<Row>)
    ensures multiset(NewestFirst(rows)) == multiset(rows)
    ensures |NewestFirst(rows)| == |rows|
    ensures forall i, j :: 0 <= i < j < |NewestFirst(rows)| ==>
      NewestFirst(rows)[i].timestamp >= NewestFirst(rows)[j].timestamp
  {
    assert TotalPreorder(Later);
    SortBySorted(rows, Later);
    assert |multiset(NewestFirst(rows))| == |multiset(rows)|;
  }

  /** A page of a newest-first list is still newest first. */
  lemma PageNewestFirst(rows: seq<Row>, limit: int, offset: int)
    ensures var p := Page(NewestFirst(rows), limit, offset);
      forall i, j :: 0 <= i < j < |p| ==> p[i].timestamp >= p[j].timestamp
  {
    NewestFirstOrdered(rows);
    PageSorted(NewestFirst(rows), limit, offset, Later);
  }

  // ----- get_test_history -----

  /** `SELECT * ... ORDER BY timestamp DESC LIMIT ? OFFSET ?`, as summaries. */
  function History(rows: seq<Row>, limit: int, offset: int): seq<TestOverview> {
    MapSeq(Page(NewestFirst(rows), limit, offset), RowToSummary)
  }

  /** The history holds at most `limit` summaries of stored rows, newest first; with no
      limit and no offset it holds every row. */
  lemma HistoryNewestFirst(rows: seq<Row>, limit: int, offset: int)
    ensures var h := History(rows, limit, offset);
      (limit >= 0 ==> |h| <= limit)
      && (limit < 0 && offset <= 0 ==> |h| == |rows|)
      && (forall i, j :: 0 <= i < j < |h| ==> h[i].timestamp >= h[j].timestamp)
      && (forall x :: x in h ==> exists r :: r in rows && x == RowToSummary(r))
  {
    var p := Page(NewestFirst(rows), limit, offset);
    var h := History(rows, limit, offset);
    PageNewestFirst(rows, limit, offset);
    NewestFirstOrdered(rows);
    forall x | x in h ensures exists r :: r in rows && x == RowToSummary(r) {
      var k :| 0 <= k < |h| && h[k] == x;
      assert p[k] in p;
      assert p[k] in multiset(NewestFirst(rows));
    }
  }

  // ----- time windows -----

  /** `timestamp >= datetime(?, '-N days')`. The cutoff is `None` when SQLite cannot
      compute it, and then no row is in the window. */
  function InWindow(cutoff: Option<Timestamp>): Row -> bool {
    (r: Row) => cutoff.Some? && r.timestamp >= cutoff.value
  }

  /** `timestamp < datetime(?, '-N days')`, the rows a purge deletes. */
  function Expired(cutoff: Option<Timestamp>): Row -> bool {
    (r: Row) => cutoff.Some? && r.timestamp < cutoff.value
  }

  /** The rows a purge leaves. */
  function Kept(cutoff: Option<Timestamp>): Row -> bool {
    (r: Row) => !Expired(cutoff)(r)
  }

  // ----- get_historical_metrics -----

  function Measured(cutoff: Option<Timestamp>): Row -> bool {
    (r: Row) => InWindow(cutoff)(r) && r.metrics.responseTimeAvg.Some?
  }

  function IntColumn(v: Option<int>): Option<real> {
    if v.Some? then Some(v.value as real) else None
  }

  /** `dict(row)` of the six selected columns: a flat record without a nested "metrics". */
  function FlatRecord(r: Row): (rec: HistoryRecord)
    ensures rec.metrics.None?
    ensures rec.fields.Keys == {"response_time_avg", "response_time_p95", "error_rate",
                                "requests_per_second", "virtual_users", "total_requests"}
  {
    HistoryRecord(map[
      "response_time_avg" := r.metrics.responseTimeAvg,
      "response_time_p95" := r.metrics.responseTimeP95,
      "error_rate" := r.metrics.errorRate,
      "requests_per_second" := r.metrics.requestsPerSecond,
      "virtual_users" := r.metrics.virtualUsers,
      "total_requests" := IntColumn(r.metrics.totalRequests)], None)
  }

  /** The rows in the window with a response-time average, newest first, at most `limit`. */
  function HistoricalMetrics(rows: seq<Row>, cutoff: Option<Timestamp>, limit: int): seq<HistoryRecord> {
    MapSeq(Page(NewestFirst(Filter(rows, Measured(cutoff))), limit, 0), FlatRecord)
  }

  /** Each record comes from a row in the window whose average is not NULL, and there
      are at most `limit` of them. */
  lemma HistoricalMetricsFromWindow(rows: seq<Row>, cutoff: Option<Timestamp>, limit: int)
    ensures var h := HistoricalMetrics(rows, cutoff, limit);
      (limit >= 0 ==> |h| <= limit)
      && forall rec :: rec in h ==>
        rec.metrics.None?
        && (exists r :: r in rows && InWindow(cutoff)(r) && r.metrics.responseTimeAvg.Some? && rec == FlatRecord(r))
  {
    var w := Filter(rows, Measured(cutoff));
    var p := Page(NewestFirst(w), limit, 0);
    NewestFirstOrdered(w);
    forall rec | rec in HistoricalMetrics(rows, cutoff, limit)
      ensures exists r :: r in rows && InWindow(cutoff)(r) && r.metrics.responseTimeAvg.Some? && rec == FlatRecord(r)
    {
      var k :| 0 <= k < |p| && FlatRecord(p[k]) == rec;
      assert p[k] in p;
      assert p[k] in multiset(NewestFirst(w));
      assert p[k] in w;
    }
  }

  /** The records are the newest measured rows of the window: those rows can be ordered
      newest first so that the records are the first `limit` of them flattened (all of
      them when `limit` is negative or large enough), so no row left out is newer than
      a row returned. */
  lemma HistoricalMetricsNewest(rows: seq<Row>, cutoff: Option<Timestamp>, limit: int)
    ensures var w := Filter(rows, Measured(cutoff));
      exists kept: seq<Row>, rest: seq<Row> ::
        SortedBy(kept + rest, Later) && multiset(kept + rest) == multiset(w)
        && HistoricalMetrics(rows, cutoff, limit) == MapSeq(kept, FlatRecord)
        && (limit < 0 || limit >= |w| ==> rest == [])
        && (0 <= limit < |w| ==> |kept| == limit)
  {
    var w := Filter(rows, Measured(cutoff));
    assert TotalPreorder(Later);
    var kept, rest := SortedPage(w, Later, limit);
  }

  /** The averaging reads a nested "metrics" entry the database records never have, so
      history taken from the database averages to zero for every metric. */
  lemma DatabaseHistoryAveragesZero(rows: seq<Row>, cutoff: Option<Timestamp>, limit: int, key: string)
    ensures MetricTotal(HistoricalMetrics(rows, cutoff, limit), key) == 0.0
  {
    var h := HistoricalMetrics(rows, cutoff, limit);
    forall rec | rec in h ensures rec.metrics.None? {
      var k :| 0 <= k < |h| && h[k] == rec;
    }
    FlatRecordsTotalZero(h, key);
  }

  // ----- get_anomaly_statistics -----

  /** The severity breakdown is a list of (severity, count) pairs, NULL severity included. */
  datatype AnomalyStatistics = AnomalyStatistics(
    periodDays: int,
    totalTests: nat,
    anomalyTests: nat,
    anomalyRate: real,
    severityBreakdown: seq<(Option<Severity>, nat)>)

  /** `anomalies_detected = 1`. */
  predicate Flagged(r: Row) {
    r.anomaliesDetected == Some(true)
  }

  function SeverityOf(r: Row): Option<Severity> {
    r.severity
  }

  function WithSeverity(sev: Option<Severity>): Row -> bool {
    (r: Row) => r.severity == sev
  }

  /** `anomaly_tests / total_tests if total_tests > 0 else 0`. */
  function AnomalyRate(anomalies: nat, total: nat): (rate: real)
    ensures total == 0 ==> rate == 0.0
    ensures total > 0 ==> rate * (total as real) == anomalies as real
    ensures anomalies <= total ==> 0.0 <= rate <= 1.0
  {
    if total > 0 then anomalies as real / total as real else 0.0
  }

  function Statistics(rows: seq<Row>, days: int, cutoff: Option<Timestamp>): AnomalyStatistics {
    var window := Filter(rows, InWindow(cutoff));
    var flagged := Filter(window, Flagged);
    AnomalyStatistics(days, |window|, |flagged|, AnomalyRate(|flagged|, |window|),
                      GroupCounts(MapSeq(flagged, SeverityOf)))
  }

  /** The statistics agree with each other: no more anomalous tests than tests, a rate
      between 0 and 1 (0 for an empty window), one breakdown entry per severity seen,
      each counting the anomalous tests in the window with that severity, and the
      entries adding up to the anomalous tests. */
  lemma StatisticsConsistent(rows: seq<Row>, days: int, cutoff: Option<Timestamp>, sev: Option<Severity>)
    ensures var st := Statistics(rows, days, cutoff);
      st.periodDays == days
      && st.anomalyTests <= st.totalTests
      && 0.0 <= st.anomalyRate <= 1.0
      && (st.totalTests == 0 ==> st.anomalyRate == 0.0)
      && SumCounts(st.severityBreakdown) == st.anomalyTests
      && ProperGroups(st.severityBreakdown)
      && GroupCount(st.severityBreakdown, sev)
         == |Filter(Filter(Filter(rows, InWindow(cutoff)), Flagged), WithSeverity(sev))|
  {
    var flagged := Filter(Filter(rows, InWindow(cutoff)), Flagged);
    GroupCountsExact(MapSeq(flagged, SeverityOf), sev);
    CountOfMapSeq(flagged, SeverityOf, sev, WithSeverity(sev));
  }

  // ----- search_tests -----

  /** The filters `search_tests` may apply; a NULL column satisfies no comparison. */
  function SearchMatches(anomaliesOnly: bool, minErrorRate: Option<real>, maxResponseTime: Option<real>): Row -> bool {
    (r: Row) => (!anomaliesOnly || Flagged(r))
      && (minErrorRate.None? || (r.metrics.errorRate.Some? && r.metrics.errorRate.value >= minErrorRate.value))
      && (maxResponseTime.None? ||
          (r.metrics.responseTimeAvg.Some? && r.metrics.responseTimeAvg.value <= maxResponseTime.value))
  }

  function Search(rows: seq<Row>, anomaliesOnly: bool, minErrorRate: Option<real>,
                  maxResponseTime: Option<real>, limit: int): seq<TestOverview>
  {
    MapSeq(Page(NewestFirst(Filter(rows, SearchMatches(anomaliesOnly, minErrorRate, maxResponseTime))), limit, 0),
           RowToSummary)
  }

  /** Every result summarises a stored row meeting all requested filters; at most `limit`
      results, newest first. */
  lemma SearchResultsMatch(rows: seq<Row>, anomaliesOnly: bool, minErrorRate: Option<real>,
                           maxResponseTime: Option<real>, limit: int)
    ensures var h := Search(rows, anomaliesOnly, minErrorRate, maxResponseTime, limit);
      (limit >= 0 ==> |h| <= limit)
      && (forall i, j :: 0 <= i < j < |h| ==> h[i].timestamp >= h[j].timestamp)
      && forall x :: x in h ==>
        exists r :: r in rows && x == RowToSummary(r) && SearchMatches(anomaliesOnly, minErrorRate, maxResponseTime)(r)
  {
    var w := Filter(rows, SearchMatches(anomaliesOnly, minErrorRate, maxResponseTime));
    var p := Page(NewestFirst(w), limit, 0);
    var h := Search(rows, anomaliesOnly, minErrorRate, maxResponseTime, limit);
    NewestFirstOrdered(w);
    PageNewestFirst(w, limit, 0);
    forall x | x in h
      ensures exists r :: r in rows && x == RowToSummary(r) && SearchMatches(anomaliesOnly, minErrorRate, maxResponseTime)(r)
    {
      var k :| 0 <= k < |h| && h[k] == x;
      assert p[k] in p;
      assert p[k] in multiset(NewestFirst(w));
      assert p[k] in w;
    }
  }

  datatype SqlParam = RealParam(x: real) | IntParam(n: int)

  /** SQL text with its `?` placeholders kept apart from the words around them. */
  datatype SqlPiece = Words(text: string) | Placeholder

  type Sql = seq<SqlPiece>

  const AnomaliesCondition: Sql := [Words("anomalies_detected = 1")]
  const MinErrorCondition: Sql := [Words("error_rate >= "), Placeholder]
  const MaxResponseCondition: Sql := [Words("response_time_avg <= "), Placeholder]
  const AndSeparator: Sql := [Words(" AND ")]
  const MatchAll: Sql := [Words("1=1")]

  /** The conditions a search adds, in the order it adds them. */
  function ActiveConditions(anomaliesOnly: bool, minErrorRate: Option<real>, maxResponseTime: Option<real>): seq<Sql> {
    (if anomaliesOnly then [AnomaliesCondition] else [])
    + (if minErrorRate.Some? then [MinErrorCondition] else [])
    + (if maxResponseTime.Some? then [MaxResponseCondition] else [])
  }

  /** The values bound to the placeholders of the active conditions, in order. */
  function FilterValues(minErrorRate: Option<real>, maxResponseTime: Option<real>): seq<SqlParam> {
    (if minErrorRate.Some? then [RealParam(minErrorRate.value)] else [])
    + (if maxResponseTime.Some? then [RealParam(maxResponseTime.value)] else [])
  }

  lemma TotalCountOne(p: Sql)
    ensures TotalCount([p], Placeholder) == CountOf(p, Placeholder)
  {
    assert [p][1..] == [];
  }

  /** The active conditions hold one placeholder per filter value; joined, they hold no
      more and never read as "1=1". */
  lemma ActiveConditionsFacts(anomaliesOnly: bool, minErrorRate: Option<real>, maxResponseTime: Option<real>)
    ensures ActiveConditions(anomaliesOnly, minErrorRate, maxResponseTime) == []
      <==> !anomaliesOnly && minErrorRate.None? && maxResponseTime.None?
    ensures var conditions := ActiveConditions(anomaliesOnly, minErrorRate, maxResponseTime);
      conditions != [] ==>
        Join(conditions, AndSeparator) != MatchAll
        && CountOf(Join(conditions, AndSeparator), Placeholder) == |FilterValues(minErrorRate, maxResponseTime)|
  {
    var c1: seq<Sql> := if anomaliesOnly then [AnomaliesCondition] else [];
    var c2: seq<Sql> := if minErrorRate.Some? then [MinErrorCondition] else [];
    var c3: seq<Sql> := if maxResponseTime.Some? then [MaxResponseCondition] else [];
    var conditions := c1 + c2 + c3;
    assert conditions == ActiveConditions(anomaliesOnly, minErrorRate, maxResponseTime);
    if conditions != [] {
      TotalCountAppend(c1, c2, Placeholder);
      TotalCountAppend(c1 + c2, c3, Placeholder);
      TotalCountOne(AnomaliesCondition);
      TotalCountOne(MinErrorCondition);
      TotalCountOne(MaxResponseCondition);
      assert CountOf(AnomaliesCondition, Placeholder) == 0;
      assert CountOf(MinErrorCondition, Placeholder) == 1;
      assert CountOf(MaxResponseCondition, Placeholder) == 1;
      assert CountOf(AndSeparator, Placeholder) == 0;
      CountOfJoin(conditions, AndSeparator, Placeholder);
      JoinStartsWithFirst(conditions, AndSeparator);
      var first := Join(conditions, AndSeparator)[0];
      assert first == conditions[0][0];
      assert first != Words("1=1") by {
        assert first.text == "anomalies_detected = 1" || first.text == "error_rate >= "
            || first.text == "response_time_avg <= ";
      }
    }
  }

  /** The WHERE clause and parameter list `search_tests` builds: "1=1" exactly when no
      filter is requested, otherwise the requested conditions joined by AND; one
      parameter per placeholder in the clause, in order, and the limit last. */
  method BuildSearchFilter(anomaliesOnly: bool, minErrorRate: Option<real>, maxResponseTime: Option<real>, limit: int)
    returns (whereClause: Sql, params: seq<SqlParam>)
    ensures whereClause == MatchAll <==> (!anomaliesOnly && minErrorRate.None? && maxResponseTime.None?)
    ensures whereClause != MatchAll ==>
      whereClause == Join(ActiveConditions(anomaliesOnly, minErrorRate, maxResponseTime), AndSeparator)
    ensures |params| >= 1 && CountOf(whereClause, Placeholder) == |params| - 1
    ensures params[|params| - 1] == IntParam(limit)
    ensures params[..|params| - 1] == FilterValues(minErrorRate, maxResponseTime)
  {
    var conditions: seq<Sql> := [];
    params := [];
    if anomaliesOnly {
      conditions := conditions + [AnomaliesCondition];
    }
    if minErrorRate.Some? {
      conditions := conditions + [MinErrorCondition];
      params := params + [RealParam(minErrorRate.value)];
    }
    if maxResponseTime.Some? {
      conditions := conditions + [MaxResponseCondition];
      params := params + [RealParam(maxResponseTime.value)];
    }
    assert conditions == ActiveConditions(anomaliesOnly, minErrorRate, maxResponseTime);
    assert params == FilterValues(minErrorRate, maxResponseTime);
    ActiveConditionsFacts(anomaliesOnly, minErrorRate, maxResponseTime);
    if conditions != [] {
      whereClause := Join(conditions, AndSeparator);
    } else {
      whereClause := MatchAll;
      assert CountOf(MatchAll, Placeholder) == 0;
    }
    params := params + [IntParam(limit)];
    assert params[..|params| - 1] == FilterValues(minErrorRate, maxResponseTime);
  }

  /** What SQLite makes of a WHERE clause built from these pieces, for one row: "1=1"
      and the " AND " separators hold, `anomalies_detected = 1` holds for a flagged row,
      and each comparison takes the next parameter, a NULL column failing it. Any other
      text is outside the fragment `search_tests` builds and holds for no row. */
  function Holds(clause: Sql, params: seq<SqlParam>, r: Row): bool
    decreases |clause|
  {
    if clause == [] then true
    else match clause[0]
      case Placeholder => false
      case Words(w) =>
        if w == " AND " || w == "1=1" then Holds(clause[1..], params, r)
        else if w == "anomalies_detected = 1" then Flagged(r) && Holds(clause[1..], params, r)
        else if |clause| >= 2 && clause[1] == Placeholder && params != [] && params[0].RealParam? then
          (if w == "error_rate >= " then
             r.metrics.errorRate.Some? && r.metrics.errorRate.value >= params[0].x
           else if w == "response_time_avg <= " then
             r.metrics.responseTimeAvg.Some? && r.metrics.responseTimeAvg.value <= params[0].x
           else false)
          && Holds(clause[2..], params[1..], r)
        else false
  }

  lemma HoldsSeparator(rest: Sql, ps: seq<SqlParam>, r: Row)
    ensures Holds(AndSeparator + rest, ps, r) == Holds(rest, ps, r)
  {
    assert (AndSeparator + rest)[1..] == rest;
  }

  lemma HoldsAnomalies(rest: Sql, ps: seq<SqlParam>, r: Row)
    ensures Holds(AnomaliesCondition + rest, ps, r) == (Flagged(r) && Holds(rest, ps, r))
  {
    assert (AnomaliesCondition + rest)[1..] == rest;
  }

  lemma HoldsMinError(rest: Sql, v: real, ps: seq<SqlParam>, r: Row)
    ensures Holds(MinErrorCondition + rest, [RealParam(v)] + ps, r)
      == (r.metrics.errorRate.Some? && r.metrics.errorRate.value >= v && Holds(rest, ps, r))
  {
    assert (MinErrorCondition + rest)[2..] == rest;
    assert ([RealParam(v)] + ps)[1..] == ps;
  }

  lemma HoldsMaxResponse(rest: Sql, v: real, ps: seq<SqlParam>, r: Row)
    ensures Holds(MaxResponseCondition + rest, [RealParam(v)] + ps, r)
      == (r.metrics.responseTimeAvg.Some? && r.metrics.responseTimeAvg.value <= v && Holds(rest, ps, r))
  {
    assert (MaxResponseCondition + rest)[2..] == rest;
    assert ([RealParam(v)] + ps)[1..] == ps;
  }

  /** The WHERE clause `search_tests` builds. */
  function WhereClause(anomaliesOnly: bool, minErrorRate: Option<real>, maxResponseTime: Option<real>): Sql {
    var conditions := ActiveConditions(anomaliesOnly, minErrorRate, maxResponseTime);
    if conditions == [] then MatchAll else Join(conditions, AndSeparator)
  }

  /** The error-rate and response-time conditions, joined, with their parameters. */
  lemma FilterTailMeaning(minErrorRate: Option<real>, maxResponseTime: Option<real>, r: Row)
    ensures var tail := (if minErrorRate.Some? then [MinErrorCondition] else [])
                        + (if maxResponseTime.Some? then [MaxResponseCondition] else []);
      tail != [] ==>
        Holds(Join(tail, AndSeparator), FilterValues(minErrorRate, maxResponseTime), r)
        == SearchMatches(false, minErrorRate, maxResponseTime)(r)
  {
    var tail := (if minErrorRate.Some? then [MinErrorCondition] else [])
                + (if maxResponseTime.Some? then [MaxResponseCondition] else []);
    if minErrorRate.Some? && maxResponseTime.Some? {
      var e, t := minErrorRate.value, maxResponseTime.value;
      assert tail == [MinErrorCondition, MaxResponseCondition];
      assert Join(tail, AndSeparator) == MinErrorCondition + (AndSeparator + (MaxResponseCondition + []));
      assert FilterValues(minErrorRate, maxResponseTime) == [RealParam(e)] + ([RealParam(t)] + []);
      HoldsMinError(AndSeparator + (MaxResponseCondition + []), e, [RealParam(t)] + [], r);
      HoldsSeparator(MaxResponseCondition + [], [RealParam(t)] + [], r);
      HoldsMaxResponse([], t, [], r);
    } else if minErrorRate.Some? {
      var e := minErrorRate.value;
      assert Join(tail, AndSeparator) == MinErrorCondition + [];
      assert FilterValues(minErrorRate, maxResponseTime) == [RealParam(e)] + [];
      HoldsMinError([], e, [], r);
    } else if maxResponseTime.Some? {
      var t := maxResponseTime.value;
      assert Join(tail, AndSeparator) == MaxResponseCondition + [];
      assert FilterValues(minErrorRate, maxResponseTime) == [RealParam(t)] + [];
      HoldsMaxResponse([], t, [], r);
    }
  }

  /** The clause and its parameters select exactly the rows meeting the requested
      filters, NULL columns failing every comparison. */
  lemma WhereClauseMeaning(anomaliesOnly: bool, minErrorRate: Option<real>, maxResponseTime: Option<real>, r: Row)
    ensures Holds(WhereClause(anomaliesOnly, minErrorRate, maxResponseTime), FilterValues(minErrorRate, maxResponseTime), r)
      == SearchMatches(anomaliesOnly, minErrorRate, maxResponseTime)(r)
  {
    var tail := (if minErrorRate.Some? then [MinErrorCondition] else [])
                + (if maxResponseTime.Some? then [MaxResponseCondition] else []);
    var ps := FilterValues(minErrorRate, maxResponseTime);
    FilterTailMeaning(minErrorRate, maxResponseTime, r);
    if anomaliesOnly {
      assert ActiveConditions(anomaliesOnly, minErrorRate, maxResponseTime) == [AnomaliesCondition] + tail;
      if tail == [] {
        assert WhereClause(anomaliesOnly, minErrorRate, maxResponseTime) == AnomaliesCondition + [];
        assert ps == [];
        HoldsAnomalies([], ps, r);
      } else {
        assert ([AnomaliesCondition] + tail)[1..] == tail;
        assert WhereClause(anomaliesOnly, minErrorRate, maxResponseTime)
          == AnomaliesCondition + (AndSeparator + Join(tail, AndSeparator));
        HoldsAnomalies(AndSeparator + Join(tail, AndSeparator), ps, r);
        HoldsSeparator(Join(tail, AndSeparator), ps, r);
      }
    } else {
      assert ActiveConditions(anomaliesOnly, minErrorRate, maxResponseTime) == tail;
      if tail == [] {
        assert ps == [];
        assert MatchAll[1..] == [];
      }
    }
  }

  // ----- cleanup_old_records -----

  /** The table after `DELETE ... WHERE timestamp < datetime(?, '-N days')`. */
  function Purge(rows: seq<Row>, cutoff: Option<Timestamp>): seq<Row> {
    Filter(rows, Kept(cutoff))
  }

  /** A purge deletes exactly the expired rows: what is left plus what is deleted is the
      whole table, with a computable cutoff what is left is the window, and without one
      nothing is deleted. */
  lemma PurgeSplitsTable(rows: seq<Row>, cutoff: Option<Timestamp>)
    ensures |Purge(rows, cutoff)| + |Filter(rows, Expired(cutoff))| == |rows|
    ensures cutoff.Some? ==> Purge(rows, cutoff) == Filter(rows, InWindow(cutoff))
    ensures cutoff.None? ==> Purge(rows, cutoff) == rows
  {
    FilterPartition(rows, Kept(cutoff), Expired(cutoff));
    if cutoff.Some? {
      FilterSame(rows, Kept(cutoff), InWindow(cutoff));
    } else {
      FilterAll(rows, Kept(cutoff));
    }
  }

  /** Purging with a cutoff no later than a statistics window's leaves the statistics and
      the historical metrics of that window unchanged. */
  lemma PurgeKeepsRecentResults(rows: seq<Row>, purgeCutoff: Option<Timestamp>, days: int,
                                cutoff: Option<Timestamp>, limit: int)
    requires purgeCutoff.Some? && cutoff.Some? ==> purgeCutoff.value <= cutoff.value
    ensures Statistics(Purge(rows, purgeCutoff), days, cutoff) == Statistics(rows, days, cutoff)
    ensures HistoricalMetrics(Purge(rows, purgeCutoff), cutoff, limit) == HistoricalMetrics(rows, cutoff, limit)
  {
    forall r: Row ensures InWindow(cutoff)(r) == (Kept(purgeCutoff)(r) && InWindow(cutoff)(r)) {
      if InWindow(cutoff)(r) {
        assert !Expired(purgeCutoff)(r);
      }
    }
    FilterFilter(rows, Kept(purgeCutoff), InWindow(cutoff), InWindow(cutoff));
    FilterFilter(rows, Kept(purgeCutoff), Measured(cutoff), Measured(cutoff));
  }

  // ----- the service -----

  /** Errors the database raises to its callers. */
  datatype DbError = DuplicateTestId  // the UNIQUE constraint on `test_id`

  /** `DatabaseService`: the table, the AUTOINCREMENT sequence (the last id handed out)
      and the lazily-created schema. */
  class DatabaseService {
    const path: string
    var initialized: bool
    /** How many times the schema was created by this instance. */
    ghost var schemaCreations: nat
    var rows: seq<Row>
    var lastId: int

    ghost predicate Valid()
      reads this
    {
      WellFormed(rows, lastId) && schemaCreations == (if initialized then 1 else 0)
    }

    /** Opens the service on a database file that already holds `existing` rows and whose
        AUTOINCREMENT sequence is at `sequence`. The schema is not created yet. */
    constructor (dbPath: Option<string>, databaseUrl: string, existing: seq<Row>, sequence: int)
      requires WellFormed(existing, sequence)
      ensures Valid() && !initialized
      ensures path == DatabasePath(dbPath, databaseUrl) && rows == existing && lastId == sequence
    {
      path := DatabasePath(dbPath, databaseUrl);
      initialized := false;
      schemaCreations := 0;
      rows := existing;
      lastId := sequence;
    }

    /** `_ensure_initialized`: creates the schema on first use only. */
    method EnsureInitialized()
      requires Valid()
      modifies this`initialized, this`schemaCreations
      ensures Valid() && initialized
      ensures old(initialized) ==> schemaCreations == old(schemaCreations)
    {
      if !initialized {
        schemaCreations := schemaCreations + 1;
        initialized := true;
      }
    }

    /** `save_test_result`: inserts the summary under the next id and returns that id; a
        test id already stored violates the UNIQUE constraint and changes nothing. */
    method SaveTestResult(s: TestSummary) returns (result: Result<int, DbError>)
      requires Valid()
      modifies this`initialized, this`schemaCreations, this`rows, this`lastId
      ensures Valid() && initialized
      ensures HasTestId(old(rows), s.testId) ==>
        result == Failure(DuplicateTestId) && rows == old(rows) && lastId == old(lastId)
      ensures !HasTestId(old(rows), s.testId) ==>
        result == Success(old(lastId) + 1) && lastId == old(lastId) + 1
        && rows == old(rows) + [EncodeRow(old(lastId) + 1, s)]
      ensures result.Success? ==> forall r :: r in old(rows) ==> r.id < result.value
      ensures result.Success? ==>
        FindByTestId(rows, s.testId) == Some(EncodeRow(result.value, s))
        && forall t :: t != s.testId ==> FindByTestId(rows, t) == FindByTestId(old(rows), t)
    {
      EnsureInitialized();
      if HasTestId(rows, s.testId) {
        return Failure(DuplicateTestId);
      }
      var row := EncodeRow(lastId + 1, s);
      var after := rows + [row];
      forall i, j | 0 <= i < j < |after| ensures Precedes(after[i], after[j]) {
        assert after[i] == rows[i] && rows[i] in rows;
        if j < |rows| {
          assert after[j] == rows[j];
        }
      }
      forall r | r in after ensures 1 <= r.id <= lastId + 1 {
        if r != row {
          assert r in rows;
        }
      }
      forall t ensures FindByTestId(rows + [row], t)
        == if t == row.testId then Some(row) else FindByTestId(rows, t)
      {
        FindAppended(rows, row, t);
      }
      rows := rows + [row];
      lastId := lastId + 1;
      result := Success(lastId);
    }

    /** `get_test_result`: the stored test with that id, or nothing. */
    method GetTestResult(testId: string) returns (result: Option<StoredTest>)
      requires Valid()
      modifies this`initialized, this`schemaCreations
      ensures Valid() && initialized && rows == old(rows) && lastId == old(lastId)
      ensures result.None? <==> !HasTestId(rows, testId)
      ensures result.Some? ==> exists r :: r in rows && r.testId == testId && result.value == RowToDict(r)
    {
      EnsureInitialized();
      var found := FindByTestId(rows, testId);
      result := if found.Some? then Some(RowToDict(found.value)) else None;
    }

    /** `get_test_history`. */
    method GetTestHistory(limit: int, offset: int) returns (history: seq<TestOverview>)
      requires Valid()
      modifies this`initialized, this`schemaCreations
      ensures Valid() && initialized && rows == old(rows) && lastId == old(lastId)
      ensures history == History(rows, limit, offset)
    {
      EnsureInitialized();
      history := History(rows, limit, offset);
    }

    /** `get_historical_metrics`; `windowStart(days)` is today's midnight moved back
        `days` days, as SQLite computes it. */
    method GetHistoricalMetrics(days: int, limit: int, windowStart: int -> Option<Timestamp>)
      returns (history: seq<HistoryRecord>)
      requires Valid()
      modifies this`initialized, this`schemaCreations
      ensures Valid() && initialized && rows == old(rows) && lastId == old(lastId)
      ensures history == HistoricalMetrics(rows, windowStart(days), limit)
    {
      EnsureInitialized();
      history := HistoricalMetrics(rows, windowStart(days), limit);
    }

    /** `get_anomaly_statistics`. */
    method GetAnomalyStatistics(days: int, windowStart: int -> Option<Timestamp>)
      returns (stats: AnomalyStatistics)
      requires Valid()
      modifies this`initialized, this`schemaCreations
      ensures Valid() && initialized && rows == old(rows) && lastId == old(lastId)
      ensures stats == Statistics(rows, days, windowStart(days))
    {
      EnsureInitialized();
      stats := Statistics(rows, days, windowStart(days));
    }

    /** `search_tests`: the SQL text and parameters are built first, then the query runs:
        the rows the clause holds for, newest first, as many as the last parameter allows. */
    method SearchTests(anomaliesOnly: bool, minErrorRate: Option<real>, maxResponseTime: Option<real>, limit: int)
      returns (results: seq<TestOverview>)
      requires Valid()
      modifies this`initialized, this`schemaCreations
      ensures Valid() && initialized && rows == old(rows) && lastId == old(lastId)
      ensures results == Search(rows, anomaliesOnly, minErrorRate, maxResponseTime, limit)
    {
      EnsureInitialized();
      var whereClause, params := BuildSearchFilter(anomaliesOnly, minErrorRate, maxResponseTime, limit);
      var filterValues := params[..|params| - 1];
      var selected := Filter(rows, (r: Row) => Holds(whereClause, filterValues, r));
      results := MapSeq(Page(NewestFirst(selected), params[|params| - 1].n, 0), RowToSummary);
      assert whereClause == WhereClause(anomaliesOnly, minErrorRate, maxResponseTime);
      forall r ensures Holds(whereClause, filterValues, r) == SearchMatches(anomaliesOnly, minErrorRate, maxResponseTime)(r) {
        WhereClauseMeaning(anomaliesOnly, minErrorRate, maxResponseTime, r);
      }
      FilterSame(rows, (r: Row) => Holds(whereClause, filterValues, r), SearchMatches(anomaliesOnly, minErrorRate, maxResponseTime));
    }

    /** `cleanup_old_records`: deletes the rows older than the cutoff and returns how many. */
    method CleanupOldRecords(days: int, windowStart: int -> Option<Timestamp>) returns (deleted: int)
      requires Valid()
      modifies this`initialized, this`schemaCreations, this`rows
      ensures Valid() && initialized && lastId == old(lastId)
      ensures rows == Purge(old(rows), windowStart(days))
      ensures deleted == |Filter(old(rows), Expired(windowStart(days)))|
    {
      EnsureInitialized();
      var cutoff := windowStart(days);
      var kept := Purge(rows, cutoff);
      FilterWellFormed(rows, lastId, Kept(cutoff));
      PurgeSplitsTable(rows, cutoff);
      deleted := |rows| - |kept|;
      rows := kept;
    }
  }
}
