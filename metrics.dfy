/** The metrics extractor of backend/app/services/k6_runner.py (`K6TestResult`):
    named performance indicators read out of a k6 summary-export document, each
    defaulting to zero when its metric section or aggregate is absent. */
module Metrics {
  import opened Wrappers

  /** One metric's aggregate sub-document: `avg`, `rate`, `count`, `p(95)`, `max`, ... */
  type Aggregates = map<string, real>

  /** A k6 summary export; `metrics` is `None` when the document has no "metrics" key. */
  datatype SummaryExport = SummaryExport(metrics: Option<map<string, Aggregates>>)

  /** The indicators a run records (the "metrics" part of a test summary). */
  datatype Metrics = Metrics(
    responseTimeAvg: real,
    responseTimeP95: real,
    errorRate: real,
    requestsPerSecond: real,
    virtualUsers: real,
    totalRequests: int,
    durationMs: real)

  predicate HasAggregate(doc: SummaryExport, metric: string, stat: string) {
    doc.metrics.Some? && metric in doc.metrics.value && stat in doc.metrics.value[metric]
  }

  /** `raw.get('metrics', {}).get(metric, {}).get(stat, 0)`. */
  function Aggregate(doc: SummaryExport, metric: string, stat: string): real {
    if HasAggregate(doc, metric, stat) then doc.metrics.value[metric][stat] else 0.0
  }

  function DurationMs(doc: SummaryExport): real {
    Aggregate(doc, "iteration_duration", "avg")
  }

  function RequestsPerSecond(doc: SummaryExport): real {
    Aggregate(doc, "http_reqs", "rate")
  }

  /** The failure fraction as a percentage. */
  function ErrorRate(doc: SummaryExport): real {
    Aggregate(doc, "http_req_failed", "rate") * 100.0
  }

  function ResponseTimeP95(doc: SummaryExport): real {
    Aggregate(doc, "http_req_duration", "p(95)")
  }

  function ResponseTimeAvg(doc: SummaryExport): real {
    Aggregate(doc, "http_req_duration", "avg")
  }

  /** `vus.max`, returned as stored: the source does not cast it. */
  function VirtualUsers(doc: SummaryExport): real {
    Aggregate(doc, "vus", "max")
  }

  /** Python's `int(x)` on a float: truncation toward zero. */
  function Truncate(x: real): (n: int)
    ensures x >= 0.0 ==> 0 <= n && n as real <= x < n as real + 1.0
    ensures x < 0.0 ==> n <= 0 && n as real - 1.0 < x <= n as real
  {
    if x >= 0.0 then x.Floor else -((-x).Floor)
  }

  function TotalRequests(doc: SummaryExport): int {
    Truncate(Aggregate(doc, "http_reqs", "count"))
  }

  /** The "metrics" dictionary `run_test` assembles from the accessors. */
  function Extract(doc: SummaryExport): Metrics {
    Metrics(ResponseTimeAvg(doc), ResponseTimeP95(doc), ErrorRate(doc),
            RequestsPerSecond(doc), VirtualUsers(doc), TotalRequests(doc), DurationMs(doc))
  }

  /** A summary export carrying exactly the aggregates the accessors read:
      the document k6 writes for a run with these indicators. */
  function Export(m: Metrics): SummaryExport {
    SummaryExport(Some(map[
      "iteration_duration" := map["avg" := m.durationMs],
      "http_reqs" := map["rate" := m.requestsPerSecond, "count" := m.totalRequests as real],
      "http_req_failed" := map["rate" := m.errorRate / 100.0],
      "http_req_duration" := map["p(95)" := m.responseTimeP95, "avg" := m.responseTimeAvg],
      "vus" := map["max" := m.virtualUsers]]))
  }

  /** Truncation gives back an integral count unchanged. */
  lemma TruncateIntegral(n: int)
    ensures Truncate(n as real) == n
  {
    if n < 0 {
      assert (-(n as real)).Floor == -n;
    }
  }

  /** Reading a summary export that k6 wrote for some indicators gives those indicators
      back: the error rate is the failure fraction times 100, and the request count
      survives `int()`. */
  lemma ExtractExportRoundTrip(m: Metrics)
    ensures Extract(Export(m)) == m
  {
    TruncateIntegral(m.totalRequests);
  }

  /** A document without a "metrics" section reads as all zeros, never as an error. */
  lemma MissingMetricsReadAsZero(doc: SummaryExport)
    requires doc.metrics.None? || doc.metrics.value == map[]
    ensures Extract(doc) == Metrics(0.0, 0.0, 0.0, 0.0, 0.0, 0, 0.0)
  {
  }

  /** Each accessor reads its own aggregate, and an absent one reads as zero. */
  lemma AccessorsReadTheirAggregate(doc: SummaryExport)
    ensures ErrorRate(doc) == 100.0 * Aggregate(doc, "http_req_failed", "rate")
    ensures !HasAggregate(doc, "http_req_failed", "rate") ==> ErrorRate(doc) == 0.0
    ensures !HasAggregate(doc, "http_req_duration", "avg") ==> ResponseTimeAvg(doc) == 0.0
    ensures !HasAggregate(doc, "http_req_duration", "p(95)") ==> ResponseTimeP95(doc) == 0.0
    ensures !HasAggregate(doc, "http_reqs", "rate") ==> RequestsPerSecond(doc) == 0.0
    ensures !HasAggregate(doc, "http_reqs", "count") ==> TotalRequests(doc) == 0
    ensures !HasAggregate(doc, "vus", "max") ==> VirtualUsers(doc) == 0.0
    ensures !HasAggregate(doc, "iteration_duration", "avg") ==> DurationMs(doc) == 0.0
  {
  }

  /** The fixture of `test_k6_runner_metrics`: a 5 % failure fraction reads as 5.0. */
  lemma ExtractFixture()
    ensures Extract(SummaryExport(Some(map[
      "iteration_duration" := map["avg" := 1500.0],
      "http_reqs" := map["rate" := 25.5, "count" := 1000.0],
      "http_req_failed" := map["rate" := 0.05],
      "http_req_duration" := map["p(95)" := 2000.0, "avg" := 800.0],
      "vus" := map["max" := 20.0]])))
      == Metrics(800.0, 2000.0, 5.0, 25.5, 20.0, 1000, 1500.0)
  {
    TruncateIntegral(1000);
  }
}
