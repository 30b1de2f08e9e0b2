# LoadGenie run pipeline, result store and AI retry loop in Dafny

This project models the core of LoadGenie's backend. LoadGenie runs k6 load-test scripts, judges the results for anomalies and keeps a history. The model has three parts, each with proofs.

- **The run pipeline** (`backend/app/services/k6_runner.py`):
  - metric extraction from k6's summary export (`metrics.dfy`);
  - the rule-based anomaly detector, historical averaging and AI-result defaulting (`anomaly.dfy`);
  - the k6 command builder, the `run_test` pipeline over an abstract results directory, the file cleanup and the history fallback (`runner.dfy`).
- **The result store** (`backend/app/services/database.py`, `database.dfy`). The `test_runs` table is a sequence of rows inside a `DatabaseService` class. Every SQL statement is a function over that sequence: insert, lookup, newest-first paging, windowed history, statistics, search and purge.
- **The AI generation service** (`backend/app/services/ai_service.py`, `ai_service.dfy`): input checks, the streamed-chunk loop with its timeout, the validation of one attempt, and the bounded retry loop with exponential backoff.

Three files are shared helpers:
- `wrappers.dfy`: `Option` and `Result`;
- `text.dfy`: Python's `strip()`, substring search and string order;
- `sequences.dfy`: filtering, a stable insertion sort, SQLite's `LIMIT/OFFSET`, Python's `[-k:]`, grouping and joining.

Some behaviour comes from outside and is passed in as inputs:
- what k6 does: exit code, console text, written files;
- whether each file or database write succeeds;
- the clock: timestamps, chunk arrival times, execution time;
- what SQLite's `datetime(?, '-N days')` yields;
- what the AI answers;
- what `json.loads` yields.

Several behaviours of the source are modelled as the code has them and proved as lemmas:
- **Database history averages are zero.** `get_historical_metrics` returns flat rows. `_calculate_historical_averages` reads the nested `metrics` entry, so every average it computes from the database is 0 (`Database.DatabaseHistoryAveragesZero`).
- **The stream output and the backup share a file.** k6's `--out json=` stream file and the runner's JSON backup have the same path (`Runner.CommandPathsAgree`).
- **A successful run deletes its own backup.** The cleanup glob `test_<id>_*.json` of backend/app/services/k6_runner.py:419-421 matches the backup, so nothing of the run remains in the directory (`Runner.SuccessLeavesNoArtifacts`).
- **The file fallback orders by name, not time.** It sorts backup names, and with random UUID test ids that order says nothing about time (`Runner.FallbackPathsOrdered`).
- **Some flagged runs get no recommendation.** A run flagged only by the P95 or the throughput rule gets issues but no recommendation (`Anomaly.NoRecommendationForP95OrThroughputAlone`).
- **Invalid answers are retried.** The `except Exception` of backend/app/services/ai_service.py:141-148 also catches the errors raised for an empty script or invalid JSON, so those answers are retried like a network failure (`AiService.EmptyScriptIsRetried`).

- **k6 runs without a timeout.** `process.communicate()` at backend/app/services/k6_runner.py:363 is given none, and the runner never reads the `K6_TIMEOUT` setting of backend/app/core/config.py:34 (`Runner.RunOutcomeCases` has no timeout case).
- **A failed backup write fails the run.** `open(results_file, 'w')` at backend/app/services/k6_runner.py:399 is outside any `try`, so its failure ends the run with an error (`Runner.K6Runner.AnalyzeAndSave`).

## Model

| member | source | states |
|---|---|---|
| Metrics.Truncate | backend/app/services/k6_runner.py:67-69 | `int()` on a float truncates toward zero: the result is within one of the input, on the zero side |
| Metrics.ExtractExportRoundTrip | backend/app/services/k6_runner.py:30-69 | reading a summary export written for some indicators gives those indicators back: the error rate is 100 × the failure fraction and the request count survives `int()` |
| Metrics.MissingMetricsReadAsZero | backend/app/services/k6_runner.py:30-69 | a document without metrics reads as all zeros, never as an error |
| Metrics.AccessorsReadTheirAggregate | backend/app/services/k6_runner.py:36-69 | the error rate is exactly 100 × `http_req_failed.rate`; each accessor is 0 when its metric or aggregate is absent |
| Metrics.ExtractFixture | backend/tests/test_k6_runner.py:19-39 | the test's fixture document reads as avg 800, p95 2000, error rate 5.0, 25.5 req/s, 20 VUs, 1000 requests |
| Anomaly.RuleBasedDetection | backend/app/services/k6_runner.py:169-218 | the step-by-step rule ladder produces exactly the declarative rule report (severity, issues, recommendations, confidence 0.8) |
| Anomaly.SeverityIsHighestFinding | backend/app/services/k6_runner.py:171-202 | the severity is the highest any fired rule calls for, so it is never lowered and never "critical" |
| Anomaly.RuleIssuesOrdered | backend/app/services/k6_runner.py:174-218 | issues come in rule order, at most one per rule (so at most 4), and anomalies are detected exactly when there are issues |
| Anomaly.RuleIssuesExact | backend/app/services/k6_runner.py:177-202 | each issue is present exactly when its threshold is crossed, carrying the tripping value; throughput is judged only with VUs > 0 |
| Anomaly.RecommendationsFollowFindings | backend/app/services/k6_runner.py:204-210 | "investigate" iff error rate > 5, "optimize" iff average > 2000 ms, "looks good" iff no issue, and then it is the only one |
| Anomaly.NoRecommendationForP95OrThroughputAlone | backend/app/services/k6_runner.py:192-210 | a run flagged only by P95 or throughput is anomalous but gets no recommendation |
| Anomaly.RuleFixtures | backend/tests/test_k6_runner.py:71-116 | the normal, high-error and slow fixtures get low, high and high severity with the expected issues |
| Anomaly.CalculateHistoricalAverages | backend/app/services/k6_runner.py:147-167 | empty history gives `{}`; otherwise each of the four keys maps to its total over the records divided by their number |
| Anomaly.FlatRecordsTotalZero | backend/app/services/k6_runner.py:156-162 | records without a nested "metrics" entry contribute only zeros |
| Anomaly.UniformRecordsTotal | backend/app/services/k6_runner.py:156-167 | when every record has the same value, the total is that value times the count, so the average is that value |
| Anomaly.AiDefaults | backend/app/services/k6_runner.py:99-105 | each field is read on its own: a given field is kept (issue and recommendation texts one for one, in order), an absent one takes its default (no anomalies, "low", no issues, no recommendations, confidence 0.5) |
| Anomaly.AnalyzeResults | backend/app/services/k6_runner.py:77-111 | averages are requested only with history; an AI answer is used with defaults; any AI failure yields exactly the rule report |
| Database.DatabasePathChoice | backend/app/services/database.py:20-29 | an explicit non-empty path wins; a "sqlite:///" URL gives back the path after the scheme; any other URL gives "./loadgenie.db" |
| Database.StoredRoundTrip | backend/app/services/database.py:92-142 | a saved summary reads back with the same id, metrics, analysis, options, raw output and console text |
| Database.FindByTestId | backend/app/services/database.py:144-167 | a lookup finds a row with that test id exactly when one exists |
| Database.FindAppended | backend/app/services/database.py:92-167 | after inserting a new test id, a lookup finds the new row for it and is unchanged for every other id |
| Database.NewestFirstOrdered | backend/app/services/database.py:185-188 | `ORDER BY timestamp DESC` is a permutation of the table in descending timestamp order |
| Database.PageNewestFirst | backend/app/services/database.py:185-188 | a page of the newest-first order stays ordered and holds at most `limit` rows |
| Database.HistoryNewestFirst | backend/app/services/database.py:169-192 | the history has at most `limit` summaries (all rows for a negative limit and no offset), newest first, each from a stored row |
| Database.FlatRecord | backend/app/services/database.py:215-231 | a history row decodes to a flat record with the six metric keys and no nested metrics |
| Database.HistoricalMetricsFromWindow | backend/app/services/database.py:194-231 | the historical metrics are at most `limit` flat records, each from a row of the window with a measured average |
| Database.HistoricalMetricsNewest | backend/app/services/database.py:194-231 | the records are the newest `limit` measured rows of the window (all of them for a negative or large `limit`), newest first: no row left out is newer than one returned |
| Database.DatabaseHistoryAveragesZero | backend/app/services/database.py:207-231 | records from the database total 0 for every key, so the averages computed from them are all 0 |
| Database.AnomalyRate | backend/app/services/database.py:284 | the rate is 0 for no tests, otherwise anomalies / total, and lies in [0, 1] |
| Database.StatisticsConsistent | backend/app/services/database.py:233-286 | anomalies ≤ total, the breakdown counts sum to the anomalies, each label appears once, and its count is the number of anomalous window rows with that severity |
| Database.SearchResultsMatch | backend/app/services/database.py:288-337 | at most `limit` results, newest first, each a stored row meeting every active filter (NULL fails a comparison) |
| Database.ActiveConditionsFacts | backend/app/services/database.py:309-324 | no condition exactly when no filter is given; otherwise the joined clause is never "1=1" and has as many placeholders as filter values |
| Database.BuildSearchFilter | backend/app/services/database.py:309-324 | "1=1" exactly when no filter is active, otherwise the active conditions in order joined by " AND "; one parameter per placeholder, in order, then the limit |
| Database.WhereClauseMeaning | backend/app/services/database.py:309-330 | with its parameters in order, the built WHERE clause holds for a row exactly when the row meets every requested filter, a NULL column failing its comparison |
| Database.PurgeSplitsTable | backend/app/services/database.py:339-365 | kept and deleted rows partition the table; what is kept is exactly the statistics window |
| Database.PurgeKeepsRecentResults | backend/app/services/database.py:339-365 | purging at an earlier or equal cutoff changes neither the statistics nor the historical metrics of a window |
| Database.DatabaseService.constructor | backend/app/services/database.py:20-35 | a fresh service has the chosen path, is not initialized and holds the given table |
| Database.DatabaseService.EnsureInitialized | backend/app/services/database.py:37-41 | the schema is created at most once; later calls change nothing |
| Database.DatabaseService.SaveTestResult | backend/app/services/database.py:92-142 | a duplicate test id fails with the table unchanged; otherwise exactly one row is appended with an id larger than every earlier one, and that id is returned |
| Database.DatabaseService.GetTestResult | backend/app/services/database.py:144-167 | `None` exactly for an unknown test id, otherwise the decoded row with that id |
| Database.DatabaseService.GetTestHistory | backend/app/services/database.py:169-192 | returns the newest-first page of summaries and leaves the table unchanged |
| Database.DatabaseService.GetHistoricalMetrics | backend/app/services/database.py:194-231 | returns the window's measured rows as flat records and leaves the table unchanged |
| Database.DatabaseService.GetAnomalyStatistics | backend/app/services/database.py:233-286 | returns the window's statistics and leaves the table unchanged |
| Database.DatabaseService.SearchTests | backend/app/services/database.py:288-337 | runs the built clause and parameters: the rows the clause holds for, newest first, at most the `LIMIT` parameter, which is exactly the filtered search; the table is unchanged |
| Database.DatabaseService.CleanupOldRecords | backend/app/services/database.py:339-365 | deletes exactly the rows older than the cutoff, returns their number and keeps the rest in order |
| Runner.GlobMatchOf | backend/app/services/k6_runner.py:419-421 | a name made of the prefix, a part without a path separator and the suffix matches the glob |
| Runner.PrepareCommand | backend/app/services/k6_runner.py:327-350 | the command reads back as `k6 run` with the run's stream and summary paths, the present options in the order vus, duration, iterations, and the script last; its length is 7 + 2 per option |
| Runner.ParseFlags | backend/app/services/k6_runner.py:339-345 | flag pairs read back as the pairs they were built from |
| Runner.FlagsOfOverrides | backend/app/services/k6_runner.py:339-345 | the flags are `--vus`, `--duration`, `--iterations`, each followed by its value, only for the keys present |
| Runner.OptionsFixture | backend/tests/test_k6_runner.py:185-203 | the test's options give the three flag pairs in order; no options give no flag |
| Runner.CommandPathsAgree | backend/app/services/k6_runner.py:332-336 | the summary path passed to k6 is the one read back (line 370); the stream output path is the backup path (line 397) |
| Runner.BackupIsRunArtifact | backend/app/services/k6_runner.py:412-421 | the cleanup globs match the backup, the summary and the script of the run |
| Runner.SummaryReadBack | backend/app/services/k6_runner.py:369-375 | for a fresh test id, reading the summary gives exactly what k6 exported: missing, unreadable or the document |
| Runner.RunOutcomeCases | backend/app/services/k6_runner.py:246-315 | a run succeeds exactly when the script is written, k6 exits 0 with a readable summary and the backup is written; the result then carries that summary's metrics and the AI verdict or the rule report |
| Runner.SuccessLeavesNoArtifacts | backend/app/services/k6_runner.py:306-309 | after a successful run none of its files remains, the backup included, and every other file is untouched |
| Runner.FallbackPathsOrdered | backend/app/services/k6_runner.py:439 | the fallback reads at most `limit` backups (all of them for 0), in descending name order |
| Runner.FallbackPathsListed | backend/app/services/k6_runner.py:439 | when the listing is the directory, every path the fallback reads is a file of the directory matching `test_*_results.json`; with `limit == 0` it reads all of them, otherwise every backup it skips sorts before every backup it reads |
| Runner.K6Runner.constructor | backend/app/services/k6_runner.py:223-227 | the runner keeps the directory's existing files |
| Runner.K6Runner.CreateScriptFile | backend/app/services/k6_runner.py:317-325 | the script is written to `test_<id>.js` and nothing else changes |
| Runner.K6Runner.CleanupFiles | backend/app/services/k6_runner.py:412-424 | exactly the run's script and the `<stem>_*.json`/`.txt` matches are removed; other files keep their content |
| Runner.K6Runner.ExecuteK6 | backend/app/services/k6_runner.py:352-384 | k6 runs the command built for the test; a non-zero exit fails with its code and output, otherwise the summary is read back |
| Runner.K6Runner.Summarize | backend/app/services/k6_runner.py:277-296 | the summary carries the run's metrics and the AI verdict or, when the AI fails, the rule report; the table is unchanged |
| Runner.K6Runner.SaveToDatabase | backend/app/services/k6_runner.py:404-410 | a database failure or duplicate is swallowed and leaves the table and its id sequence unchanged; otherwise one row is appended under the next id |
| Runner.K6Runner.AnalyzeAndSave | backend/app/services/k6_runner.py:277-311 | a failed backup write fails the run with files unchanged; otherwise the summary is saved, backed up and cleaned up |
| Runner.K6Runner.RunTest | backend/app/services/k6_runner.py:246-315 | the outcome, the directory afterwards and the row added are the run's specification; failures before the backup skip cleanup |
| Runner.K6Runner.GetTestHistory | backend/app/services/k6_runner.py:426-456 | given the listing of the runner's own directory, the database history when it answers with any row, otherwise the summaries of the directory's backups with the greatest names, newest name first |
| AiService.DescriptionChecks | backend/app/services/ai_service.py:170-174 | "empty" exactly for an empty or blank description, "too short" exactly for under 10 stripped characters, otherwise passed on unchanged |
| AiService.PromptChecks | backend/app/services/ai_service.py:212-213 | a prompt is refused exactly when it is empty or blank |
| AiService.TextsAppend | backend/app/services/ai_service.py:110-111 | the response of two runs of chunks is the concatenation of their responses |
| AiService.CollectResponse | backend/app/services/ai_service.py:98-111 | the chunk loop times out exactly when some chunk arrives after the timeout; otherwise it returns all texts in order |
| AiService.CollectCases | backend/app/services/ai_service.py:102-111 | one late chunk aborts the attempt whatever came before it; without one the texts are concatenated |
| AiService.MissingPatterns | backend/app/services/ai_service.py:126-127 | a required pattern is listed exactly when the script lacks it |
| AiService.AttemptAcceptsAnyScript | backend/app/services/ai_service.py:113-134 | an attempt succeeds exactly when the stream completes in time with a non-blank response that decodes to an object with a non-empty script, whatever patterns it lacks |
| AiService.RunAttempt | backend/app/services/ai_service.py:98-139 | one attempt yields its specified outcome |
| AiService.GenerateSync | backend/app/services/ai_service.py:51-155 | the loop's result, attempt count and waits are those of the retry specification |
| AiService.GenerateK6Script | backend/app/services/ai_service.py:157-197 | an invalid description fails without an attempt; otherwise the retry loop's result |
| AiService.AnalyzeTestResults | backend/app/services/ai_service.py:199-236 | a blank prompt fails without an attempt; otherwise the retry loop's result |
| AiService.AttemptsBounded | backend/app/services/ai_service.py:56 | at most `max_retries` attempts, and at least one when it is positive |
| AiService.FirstSuccessWins | backend/app/services/ai_service.py:56-134 | the loop returns `s` exactly when some attempt within the bound yields `s` after only failures |
| AiService.StopsAtFirstSuccess | backend/app/services/ai_service.py:56-76 | after the first successful attempt no further attempt is made: the attempts made are exactly those up to it |
| AiService.AllFailuresRaiseLast | backend/app/services/ai_service.py:141-155 | when every attempt fails, the last `AIServiceError` is raised unchanged and any other exception is wrapped; all attempts are made |
| AiService.NoAttemptsStillRaise | backend/app/services/ai_service.py:152-155 | with `max_retries` ≤ 0 no attempt runs and an error is still raised |
| AiService.Backoff | backend/app/services/ai_service.py:141-148 | after the k-th of n failed attempts (counting from 0) the wait is 2^(k+1) seconds, one wait per attempt followed by another |
| AiService.DefaultBackoff | backend/app/services/ai_service.py:141-150 | with three retries and three failures the waits are 2 then 4 seconds and the third failure is raised |
| AiService.EmptyScriptIsRetried | backend/app/services/ai_service.py:121-148 | an answer without a script is retried, and a script from the next attempt is returned |

## Left out

- Process spawning and the k6 installation check are not modelled. The exit code, console text and written files of k6 are inputs. The source sets no timeout on the process, so none is modelled.
- File and JSON I/O is abstract. The results directory is a map from path to content, and each write either succeeds or fails whole. Partial writes, unlink failures in the cleanup and `mkdir` are not modelled.
- Runner.ReadSummary: a file at the summary path that k6 did not write as its summary counts as unparseable. For a fresh UUID test id no such file exists.
- Runner.BackupEntries: any file matching the backup glob that is not a backup is skipped. A one-line JSON object written by someone else would be read by the source.
- Runner.Stem: the stem of `test_<id>.js` is `test_<id>`. This holds because UUID test ids contain no dot.
- Options are their `str()` rendering. The model's `options` map holds each value's `str()`, which is all the command uses.
- Timestamps are integers ordered like time. The source compares ISO-8601 text with SQLite's `datetime()` text, and the model does not reproduce that.
- The `datetime(?, '-N days')` cutoff is an input. `None` stands for a modifier SQLite cannot evaluate (a negative `days` gives `--N`); then no row is in the window and the purge deletes nothing.
- The order SQLite gives to rows with equal timestamps, and to GROUP BY groups, is not modelled. The model uses insertion order for both.
- Database.DatabaseService: `created_at` is never read, so the model does not store it. Creating the database file's parent directory is not modelled.
- The SQL text is modelled as pieces with explicit placeholders. The where clause has the same words, in the same order, as the source.
- The Gemini client, the thread pool, `time.sleep` and `time.time` are not modelled. Each attempt's chunks, arrival times and stream end are inputs. The waits are returned as a list instead of being slept.
- Database.StatisticsConsistent: its "each label once" is about Dafny values. `Unlisted(name)` is not kept apart from the vocabulary, so `Unlisted("high")` and `High` are two values, while SQLite's `GROUP BY severity` would count them as one label. The model does not merge them.
- Anomaly.WithDefaults: an AI answer field that is present with JSON `null` or with a value of another JSON type passes through `.get` unchanged in the source. The model's answer fields are typed, so such values are not modelled.
- AiService.AttemptOutcome: a `k6_script` value that is not a string is not modelled. The error text of a non-object answer is shown only in outline.
- AiService.GenerateSync: the returned dictionary is modelled by its `k6_script` value; other keys pass through unchanged in the source. The outer wrapper for unexpected executor errors is not modelled. Every error of `_generate_sync` is already an `AIServiceError`.
- Prompt text, log lines and the formatting of issue strings are not modelled. Issues are tagged values that carry their metric.
- Floating point is not modelled. Metric values are `real`.
- HTTP routes, request and response schemas, configuration and logging are not modelled.
- `validate_and_improve_script` is called by the script routes but is not part of this model. Its definition is not among the files modelled.
