/** The anomaly detector of backend/app/services/k6_runner.py (`AnomalyDetector`):
    a fixed ladder of threshold rules used as the fallback, the historical averages
    sent along with the AI request, and the choice between the AI verdict and the rules. */
module Anomaly {
  import opened Wrappers
  import opened Metrics

  /** Severity labels. The rules only produce Low, Medium and High; the AI may also answer
      "critical" or a label outside the vocabulary, which the source passes through. */
  datatype Severity = Low | Medium | High | Critical | Unlisted(name: string)

  /** Findings. The first six are the rules' own, each carrying the value that tripped it
      (the source formats it into the message); `Described` is an issue worded by the AI. */
  datatype Issue =
    | HighErrorRate(percent: real)
    | ElevatedErrorRate(percent: real)
    | SlowAverage(ms: real)
    | ElevatedAverage(ms: real)
    | SlowP95(ms: real)
    | LowThroughput(rpsPerUser: real)
    | Described(text: string)

  datatype Recommendation =
    | InvestigateErrors       // "Investigate error responses and server logs"
    | OptimizePerformance     // "Optimize server performance or increase resources"
    | LooksGood               // "Test results look good - no immediate concerns"
    | Suggested(text: string) // a recommendation worded by the AI

  datatype Report = Report(
    anomaliesDetected: bool,
    severity: Severity,
    issues: seq<Issue>,
    recommendations: seq<Recommendation>,
    confidence: real)

  /** Order of the vocabulary; a label outside it ranks lowest. */
  function Level(s: Severity): nat {
    match s
    case Low => 0
    case Medium => 1
    case High => 2
    case Critical => 3
    case Unlisted(_) => 0
  }

  function Higher(a: Severity, b: Severity): Severity {
    if Level(b) > Level(a) then b else a
  }

  /** Which rule produced an issue: error rate, average time, P95, throughput; 4 for the AI's. */
  function RuleOf(i: Issue): nat {
    match i
    case HighErrorRate(_) => 0
    case ElevatedErrorRate(_) => 0
    case SlowAverage(_) => 1
    case ElevatedAverage(_) => 1
    case SlowP95(_) => 2
    case LowThroughput(_) => 3
    case Described(_) => 4
  }

  /** The severity each rule's finding calls for. */
  function IssueSeverity(i: Issue): Severity {
    match i
    case HighErrorRate(_) => High
    case SlowAverage(_) => High
    case SlowP95(_) => High
    case ElevatedErrorRate(_) => Medium
    case ElevatedAverage(_) => Medium
    case LowThroughput(_) => Medium
    case Described(_) => Low
  }

  /** The highest severity any of the issues calls for (Low for none). */
  function Highest(issues: seq<Issue>): Severity {
    if issues == [] then Low else Higher(IssueSeverity(issues[0]), Highest(issues[1..]))
  }

  // ----- the rules, stated declaratively -----

  predicate LowThroughputRule(m: Metrics) {
    m.virtualUsers > 0.0 && m.requestsPerSecond / m.virtualUsers < 0.1
  }

  /** A rule calling for "high" fires. */
  predicate HighRule(m: Metrics) {
    m.errorRate > 10.0 || m.responseTimeAvg > 3000.0 || m.responseTimeP95 > 5000.0
  }

  /** A rule calling for at least "medium" fires. */
  predicate MediumRule(m: Metrics) {
    m.errorRate > 5.0 || m.responseTimeAvg > 2000.0 || LowThroughputRule(m)
  }

  /** The rule-based severity in closed form. */
  function RuleSeverity(m: Metrics): Severity {
    if HighRule(m) then High else if MediumRule(m) then Medium else Low
  }

  function ErrorRateIssues(m: Metrics): seq<Issue> {
    if m.errorRate > 10.0 then [HighErrorRate(m.errorRate)]
    else if m.errorRate > 5.0 then [ElevatedErrorRate(m.errorRate)]
    else []
  }

  function AverageIssues(m: Metrics): seq<Issue> {
    if m.responseTimeAvg > 3000.0 then [SlowAverage(m.responseTimeAvg)]
    else if m.responseTimeAvg > 2000.0 then [ElevatedAverage(m.responseTimeAvg)]
    else []
  }

  function P95Issues(m: Metrics): seq<Issue> {
    if m.responseTimeP95 > 5000.0 then [SlowP95(m.responseTimeP95)] else []
  }

  function ThroughputIssues(m: Metrics): seq<Issue> {
    if LowThroughputRule(m) then [LowThroughput(m.requestsPerSecond / m.virtualUsers)] else []
  }

  /** The issues of the four rules, in rule order. */
  function RuleIssues(m: Metrics): seq<Issue> {
    ErrorRateIssues(m) + AverageIssues(m) + P95Issues(m) + ThroughputIssues(m)
  }

  function RuleRecommendations(m: Metrics): seq<Recommendation> {
    (if m.errorRate > 5.0 then [InvestigateErrors] else [])
    + (if m.responseTimeAvg > 2000.0 then [OptimizePerformance] else [])
    + (if RuleIssues(m) == [] then [LooksGood] else [])
  }

  const RuleConfidence: real := 0.8

  /** What the rule-based fallback reports for these indicators. */
  function RuleReport(m: Metrics): Report {
    Report(RuleIssues(m) != [], RuleSeverity(m), RuleIssues(m), RuleRecommendations(m), RuleConfidence)
  }

  // ----- the rules, as the source runs them -----

  /** `_rule_based_anomaly_detection`: walks the rules in order, appending an issue per
      rule that fires and raising `severity` (never lowering it) as it goes. */
  method RuleBasedDetection(m: Metrics) returns (r: Report)
    ensures r == RuleReport(m)
  {
    var issues: seq<Issue> := [];
    var severity := Low;

    if m.errorRate > 10.0 {
      issues := issues + [HighErrorRate(m.errorRate)];
      severity := High;
    } else if m.errorRate > 5.0 {
      issues := issues + [ElevatedErrorRate(m.errorRate)];
      severity := Medium;
    }
    assert issues == ErrorRateIssues(m);
    assert severity == if m.errorRate > 10.0 then High else if m.errorRate > 5.0 then Medium else Low;

    if m.responseTimeAvg > 3000.0 {
      issues := issues + [SlowAverage(m.responseTimeAvg)];
      severity := High;
    } else if m.responseTimeAvg > 2000.0 {
      issues := issues + [ElevatedAverage(m.responseTimeAvg)];
      if severity == Low {
        severity := Medium;
      }
    }
    assert issues == ErrorRateIssues(m) + AverageIssues(m);
    assert severity ==
      if m.errorRate > 10.0 || m.responseTimeAvg > 3000.0 then High
      else if m.errorRate > 5.0 || m.responseTimeAvg > 2000.0 then Medium
      else Low;

    if m.responseTimeP95 > 5000.0 {
      issues := issues + [SlowP95(m.responseTimeP95)];
      severity := High;
    }
    assert issues == ErrorRateIssues(m) + AverageIssues(m) + P95Issues(m);
    assert severity ==
      if HighRule(m) then High
      else if m.errorRate > 5.0 || m.responseTimeAvg > 2000.0 then Medium
      else Low;

    if m.virtualUsers > 0.0 {
      var rpsPerUser := m.requestsPerSecond / m.virtualUsers;
      if rpsPerUser < 0.1 {
        issues := issues + [LowThroughput(rpsPerUser)];
        if severity == Low {
          severity := Medium;
        }
      }
    }
    assert issues == RuleIssues(m);
    assert severity == RuleSeverity(m);

    var recommendations: seq<Recommendation> := [];
    if m.errorRate > 5.0 {
      recommendations := recommendations + [InvestigateErrors];
    }
    if m.responseTimeAvg > 2000.0 {
      recommendations := recommendations + [OptimizePerformance];
    }
    if |issues| == 0 {
      recommendations := recommendations + [LooksGood];
    }

    r := Report(|issues| > 0, severity, issues, recommendations, 0.8);
  }

  // ----- what the rules promise -----

  lemma {:induction false} HighestAppend(a: seq<Issue>, b: seq<Issue>)
    ensures Highest(a + b) == Higher(Highest(a), Highest(b))
  {
    if a == [] {
      assert a + b == b;
      if Level(Highest(b)) <= Level(Low) {
        assert Highest(b) == Low || Level(Highest(b)) == 0;
      }
      HighestIsVocabulary(b);
    } else {
      assert (a + b)[1..] == a[1..] + b;
      HighestAppend(a[1..], b);
      HighestIsVocabulary(a[1..]);
      HighestIsVocabulary(b);
    }
  }

  lemma {:induction false} HighestIsVocabulary(issues: seq<Issue>)
    ensures Highest(issues) in {Low, Medium, High}
  {
    if issues != [] {
      HighestIsVocabulary(issues[1..]);
    }
  }

  /** Severity is never lowered: it is the highest severity any fired rule calls for,
      so every issue's own severity is at most the report's, and "critical" never comes
      out of the rules. */
  lemma SeverityIsHighestFinding(m: Metrics)
    ensures RuleSeverity(m) == Highest(RuleIssues(m))
    ensures forall i :: i in RuleIssues(m) ==> Level(IssueSeverity(i)) <= Level(RuleSeverity(m))
    ensures RuleSeverity(m) != Critical
  {
    var e, a, p, t := ErrorRateIssues(m), AverageIssues(m), P95Issues(m), ThroughputIssues(m);
    HighestAppend(e, a);
    HighestAppend(e + a, p);
    HighestAppend(e + a + p, t);
    HighestOfRules(m);
    HighestBounds(RuleIssues(m));
  }

  /** Each rule's own issue list has the severity that rule calls for. */
  lemma HighestOfRules(m: Metrics)
    ensures Highest(ErrorRateIssues(m)) == if m.errorRate > 10.0 then High else if m.errorRate > 5.0 then Medium else Low
    ensures Highest(AverageIssues(m))
      == if m.responseTimeAvg > 3000.0 then High else if m.responseTimeAvg > 2000.0 then Medium else Low
    ensures Highest(P95Issues(m)) == if m.responseTimeP95 > 5000.0 then High else Low
    ensures Highest(ThroughputIssues(m)) == if LowThroughputRule(m) then Medium else Low
  {
  }

  lemma {:induction false} HighestBounds(s: seq<Issue>)
    ensures forall i :: i in s ==> Level(IssueSeverity(i)) <= Level(Highest(s))
  {
    if s != [] {
      HighestBounds(s[1..]);
      forall i | i in s ensures Level(IssueSeverity(i)) <= Level(Highest(s)) {
        if i != s[0] {
          assert i in s[1..];
        }
      }
    }
  }

  /** Issue `i` is the finding its rule reports for `m`, carrying the value it formats. */
  predicate Fired(m: Metrics, i: Issue) {
    match i
    case HighErrorRate(x) => x == m.errorRate && x > 10.0
    case ElevatedErrorRate(x) => x == m.errorRate && 5.0 < x <= 10.0
    case SlowAverage(x) => x == m.responseTimeAvg && x > 3000.0
    case ElevatedAverage(x) => x == m.responseTimeAvg && 2000.0 < x <= 3000.0
    case SlowP95(x) => x == m.responseTimeP95 && x > 5000.0
    case LowThroughput(x) => LowThroughputRule(m) && x == m.requestsPerSecond / m.virtualUsers
    case Described(_) => false
  }

  /** Issues strictly ordered by the rule that produced them (hence at most one per rule). */
  predicate ByRule(s: seq<Issue>) {
    forall i, j :: 0 <= i < j < |s| ==> RuleOf(s[i]) < RuleOf(s[j])
  }

  lemma ByRuleConcat(a: seq<Issue>, b: seq<Issue>)
    requires ByRule(a) && ByRule(b)
    requires forall x, y :: x in a && y in b ==> RuleOf(x) < RuleOf(y)
    ensures ByRule(a + b)
  {
    forall i, j | 0 <= i < j < |a + b| ensures RuleOf((a + b)[i]) < RuleOf((a + b)[j]) {
      if j < |a| {
        assert (a + b)[i] == a[i] && (a + b)[j] == a[j];
      } else if i >= |a| {
        assert (a + b)[i] == b[i - |a|] && (a + b)[j] == b[j - |a|];
      } else {
        assert (a + b)[i] == a[i] && (a + b)[j] == b[j - |a|];
      }
    }
  }

  /** The issue list holds at most one issue per rule, in the fixed order error rate,
      average, P95, throughput, so at most four; anomalies are reported exactly when
      it is non-empty. */
  lemma RuleIssuesOrdered(m: Metrics)
    ensures ByRule(RuleIssues(m))
    ensures |RuleIssues(m)| <= 4
    ensures RuleReport(m).anomaliesDetected <==> |RuleReport(m).issues| > 0
  {
    var e, a, p, t := ErrorRateIssues(m), AverageIssues(m), P95Issues(m), ThroughputIssues(m);
    RulesOfPieces(m);
    ByRuleConcat(e, a);
    assert forall x :: x in e + a ==> RuleOf(x) <= 1;
    ByRuleConcat(e + a, p);
    assert forall x :: x in e + a + p ==> RuleOf(x) <= 2;
    ByRuleConcat(e + a + p, t);
  }

  /** Each rule contributes at most one issue, tagged with that rule. */
  lemma RulesOfPieces(m: Metrics)
    ensures |ErrorRateIssues(m)| <= 1 && forall x :: x in ErrorRateIssues(m) ==> RuleOf(x) == 0
    ensures |AverageIssues(m)| <= 1 && forall x :: x in AverageIssues(m) ==> RuleOf(x) == 1
    ensures |P95Issues(m)| <= 1 && forall x :: x in P95Issues(m) ==> RuleOf(x) == 2
    ensures |ThroughputIssues(m)| <= 1 && forall x :: x in ThroughputIssues(m) ==> RuleOf(x) == 3
  {
  }

  /** Each issue is present exactly when its rule fires, carrying the value that tripped it. */
  lemma RuleIssuesExact(m: Metrics)
    ensures forall i :: i in RuleIssues(m) ==> Fired(m, i)
    ensures forall i :: Fired(m, i) ==> i in RuleIssues(m)
  {
    var e, a, p, t := ErrorRateIssues(m), AverageIssues(m), P95Issues(m), ThroughputIssues(m);
    assert RuleIssues(m) == e + a + p + t;
    forall i | i in RuleIssues(m) ensures Fired(m, i) {
      assert i in e || i in a || i in p || i in t;
    }
    forall i | Fired(m, i) ensures i in RuleIssues(m) {
      assert i in e || i in a || i in p || i in t;
    }
  }

  /** Recommendations follow the findings: "investigate" exactly when the error rate
      exceeds 5 %, "optimize" exactly when the average exceeds 2000 ms, "looks good"
      exactly when no rule fired, and a clean run gets that one recommendation only. */
  lemma RecommendationsFollowFindings(m: Metrics)
    ensures InvestigateErrors in RuleRecommendations(m) <==> m.errorRate > 5.0
    ensures OptimizePerformance in RuleRecommendations(m) <==> m.responseTimeAvg > 2000.0
    ensures LooksGood in RuleRecommendations(m) <==> RuleIssues(m) == []
    ensures RuleIssues(m) == [] ==> RuleRecommendations(m) == [LooksGood]
  {
  }

  /** A run flagged only by the P95 rule or the throughput rule gets issues but no
      recommendation at all (the source has no recommendation for those two rules). */
  lemma NoRecommendationForP95OrThroughputAlone(m: Metrics)
    requires m.errorRate <= 5.0 && m.responseTimeAvg <= 2000.0
    requires m.responseTimeP95 > 5000.0 || LowThroughputRule(m)
    ensures RuleReport(m).anomaliesDetected
    ensures RuleReport(m).recommendations == []
  {
  }

  /** The three fixtures of `TestAnomalyDetector` (k6_runner tests), read through the extractor. */
  lemma RuleFixtures()
    ensures var normal := RuleReport(Extract(SummaryExport(Some(map[
              "http_req_duration" := map["avg" := 1000.0, "p(95)" := 1500.0],
              "http_req_failed" := map["rate" := 0.02],
              "http_reqs" := map["rate" := 15.0, "count" := 900.0],
              "vus" := map["max" := 10.0]]))));
            !normal.anomaliesDetected && normal.severity == Low && normal.recommendations == [LooksGood]
    ensures var failing := RuleReport(Extract(SummaryExport(Some(map[
              "http_req_duration" := map["avg" := 1000.0, "p(95)" := 1500.0],
              "http_req_failed" := map["rate" := 0.12],
              "http_reqs" := map["rate" := 15.0, "count" := 900.0],
              "vus" := map["max" := 10.0]]))));
            failing.anomaliesDetected && failing.severity == High && HighErrorRate(12.0) in failing.issues
    ensures var slow := RuleReport(Extract(SummaryExport(Some(map[
              "http_req_duration" := map["avg" := 3500.0, "p(95)" := 6000.0],
              "http_req_failed" := map["rate" := 0.02],
              "http_reqs" := map["rate" := 15.0, "count" := 900.0],
              "vus" := map["max" := 10.0]]))));
            slow.anomaliesDetected && slow.severity == High
            && slow.issues == [SlowAverage(3500.0), SlowP95(6000.0)]
  {
  }

  // ----- historical averages -----

  /** One element of the history list: a dictionary whose flat numeric `fields` are what
      the database returns, and whose optional nested "metrics" entry is what the
      averaging reads. */
  datatype HistoryRecord = HistoryRecord(fields: map<string, Option<real>>, metrics: Option<map<string, real>>)

  const AveragedMetrics: set<string> :=
    {"response_time_avg", "response_time_p95", "error_rate", "requests_per_second"}

  /** `record.get("metrics", {}).get(key, 0)`. */
  function NestedMetric(rec: HistoryRecord, key: string): real {
    if rec.metrics.Some? && key in rec.metrics.value then rec.metrics.value[key] else 0.0
  }

  /** Sum of `key` over the records, in list order. */
  function MetricTotal(history: seq<HistoryRecord>, key: string): real {
    if history == [] then 0.0
    else MetricTotal(history[..|history| - 1], key) + NestedMetric(history[|history| - 1], key)
  }

  /** `_calculate_historical_averages`: `{}` for no history, otherwise the mean of each of
      the four averaged metrics over the list. */
  method CalculateHistoricalAverages(history: seq<HistoryRecord>) returns (averages: map<string, real>)
    ensures history == [] ==> averages == map[]
    ensures history != [] ==> averages.Keys == AveragedMetrics
    ensures history != [] ==> forall k :: k in averages ==> averages[k] == MetricTotal(history, k) / (|history| as real)
  {
    if history == [] {
      return map[];
    }
    var totals: map<string, real> := map[
      "response_time_avg" := 0.0, "response_time_p95" := 0.0,
      "error_rate" := 0.0, "requests_per_second" := 0.0];
    var i := 0;
    while i < |history|
      invariant 0 <= i <= |history|
      invariant totals.Keys == AveragedMetrics
      invariant forall k :: k in totals ==> totals[k] == MetricTotal(history[..i], k)
    {
      var record := history[i];
      assert history[..i + 1][..i] == history[..i];
      totals := totals["response_time_avg" := totals["response_time_avg"] + NestedMetric(record, "response_time_avg")];
      totals := totals["response_time_p95" := totals["response_time_p95"] + NestedMetric(record, "response_time_p95")];
      totals := totals["error_rate" := totals["error_rate"] + NestedMetric(record, "error_rate")];
      totals := totals["requests_per_second" := totals["requests_per_second"] + NestedMetric(record, "requests_per_second")];
      i := i + 1;
    }
    assert history[..|history|] == history;
    var count := |history| as real;
    averages := map k | k in totals :: totals[k] / count;
  }

  /** Records without a nested "metrics" entry (every row the database's
      historical-metrics query returns) contribute only zeros. */
  lemma {:induction false} FlatRecordsTotalZero(history: seq<HistoryRecord>, key: string)
    requires forall rec :: rec in history ==> rec.metrics.None?
    ensures MetricTotal(history, key) == 0.0
  {
    if history != [] {
      FlatRecordsTotalZero(history[..|history| - 1], key);
    }
  }

  /** When every record carries the same value for `key`, the total is that value times
      the count, so its mean is that value. */
  lemma {:induction false} UniformRecordsTotal(history: seq<HistoryRecord>, key: string, v: real)
    requires forall rec :: rec in history ==> NestedMetric(rec, key) == v
    ensures MetricTotal(history, key) == (|history| as real) * v
  {
    if history != [] {
      UniformRecordsTotal(history[..|history| - 1], key, v);
    }
  }

  // ----- AI verdict or rules -----

  /** The "current_test" part of the analysis request (it leaves out the iteration duration). */
  datatype CurrentTest = CurrentTest(
    responseTimeAvg: real, responseTimeP95: real, errorRate: real,
    requestsPerSecond: real, virtualUsers: real, totalRequests: int)

  /** What the AI is asked about: the current test and, when there is history, its averages. */
  datatype AnalysisRequest = AnalysisRequest(current: CurrentTest, historicalAverages: Option<map<string, real>>)

  /** The AI's JSON answer, each field absent or present. */
  datatype AiVerdict = AiVerdict(
    anomaliesDetected: Option<bool>,
    severity: Option<Severity>,
    issues: Option<seq<string>>,
    recommendations: Option<seq<string>>,
    confidence: Option<real>)

  function CurrentOf(m: Metrics): CurrentTest {
    CurrentTest(m.responseTimeAvg, m.responseTimeP95, m.errorRate, m.requestsPerSecond,
                m.virtualUsers, m.totalRequests)
  }

  function DescribedIssues(texts: seq<string>): (r: seq<Issue>)
    ensures |r| == |texts| && forall k :: 0 <= k < |texts| ==> r[k] == Described(texts[k])
  {
    if texts == [] then [] else [Described(texts[0])] + DescribedIssues(texts[1..])
  }

  function SuggestedRecommendations(texts: seq<string>): (r: seq<Recommendation>)
    ensures |r| == |texts| && forall k :: 0 <= k < |texts| ==> r[k] == Suggested(texts[k])
  {
    if texts == [] then [] else [Suggested(texts[0])] + SuggestedRecommendations(texts[1..])
  }

  /** The AI path's report: each absent field replaced by its default. */
  function WithDefaults(v: AiVerdict): Report {
    Report(v.anomaliesDetected.GetOr(false), v.severity.GetOr(Low),
           DescribedIssues(v.issues.GetOr([])), SuggestedRecommendations(v.recommendations.GetOr([])),
           v.confidence.GetOr(0.5))
  }

  /** Each field of the AI answer is read on its own: a given field is kept (issue and
      recommendation texts one for one, in order), an absent one takes its default, so
      an empty answer gives no anomalies, severity "low", no issues, no recommendations
      and confidence 0.5. */
  lemma AiDefaults(v: AiVerdict)
    ensures v.anomaliesDetected.Some? ==> WithDefaults(v).anomaliesDetected == v.anomaliesDetected.value
    ensures v.anomaliesDetected.None? ==> !WithDefaults(v).anomaliesDetected
    ensures v.severity.Some? ==> WithDefaults(v).severity == v.severity.value
    ensures v.severity.None? ==> WithDefaults(v).severity == Low
    ensures v.confidence.Some? ==> WithDefaults(v).confidence == v.confidence.value
    ensures v.confidence.None? ==> WithDefaults(v).confidence == 0.5
    ensures v.issues.Some? ==>
      |WithDefaults(v).issues| == |v.issues.value|
      && forall k :: 0 <= k < |v.issues.value| ==> WithDefaults(v).issues[k] == Described(v.issues.value[k])
    ensures v.issues.None? ==> WithDefaults(v).issues == []
    ensures v.recommendations.Some? ==>
      |WithDefaults(v).recommendations| == |v.recommendations.value|
      && forall k :: 0 <= k < |v.recommendations.value| ==>
           WithDefaults(v).recommendations[k] == Suggested(v.recommendations.value[k])
    ensures v.recommendations.None? ==> WithDefaults(v).recommendations == []
    ensures WithDefaults(AiVerdict(None, None, None, None, None)) == Report(false, Low, [], [], 0.5)
  {
  }

  /** `analyze_results`: asks the AI (its reply, or the exception it raised, is an input)
      with the averages computed only when there is history; an AI failure of any kind
      (call, JSON, shape) yields exactly the rule-based report. */
  method AnalyzeResults(m: Metrics, history: seq<HistoryRecord>, reply: Result<AiVerdict, string>)
    returns (request: AnalysisRequest, report: Report)
    ensures request.current == CurrentOf(m)
    ensures request.historicalAverages.None? <==> history == []
    ensures request.historicalAverages.Some? ==>
      request.historicalAverages.value.Keys == AveragedMetrics &&
      forall k :: k in request.historicalAverages.value ==>
        request.historicalAverages.value[k] == MetricTotal(history, k) / (|history| as real)
    ensures reply.Success? ==> report == WithDefaults(reply.value)
    ensures reply.Failure? ==> report == RuleReport(m)
  {
    var averages: Option<map<string, real>> := None;
    if history != [] {
      var avg := CalculateHistoricalAverages(history);
      averages := Some(avg);
    }
    request := AnalysisRequest(CurrentOf(m), averages);
    match reply {
      case Success(verdict) =>
        report := WithDefaults(verdict);
      case Failure(_) =>
        report := RuleBasedDetection(m);
    }
  }
}
