/** The run pipeline of backend/app/services/k6_runner.py (`K6Runner`): it writes the
    script into the results directory, builds the k6 command line, reads the summary k6
    exports, analyses it, keeps a JSON backup, saves to the database and cleans up; and
    it serves the test history from the database or, failing that, from the backups.
    The results directory is a map from file path to content. The k6 process, each
    write's success and the clock readings are inputs. */
module Runner {
  import opened Wrappers
  import opened Text
  import opened Sequences
  import opened Metrics
  import opened Anomaly
  import opened Database

  // ----- files of a run -----

  /** What a file in the results directory holds. */
  datatype FileContent =
    | ScriptSource(text: string)                 // the test script written by the runner
    | StreamOutput                               // k6's `--out json=` metric stream
    | SummaryFile(doc: Option<SummaryExport>)    // k6's summary export; `None` when not parseable
    | BackupFile(summary: TestSummary)           // the runner's JSON backup of a test summary
    | ForeignFile                                // anything else

  /** `results_dir / name`. */
  function PathOf(dir: string, name: string): string {
    dir + "/" + name
  }

  /** The stem of `test_<id>.js`. Test ids are UUIDs, so they hold no dot. */
  function Stem(testId: string): string {
    "test_" + testId
  }

  function ScriptPath(dir: string, testId: string): string {
    PathOf(dir, Stem(testId) + ".js")
  }

  /** The summary file `_execute_k6_test` reads. */
  function SummaryPath(dir: string, testId: string): string {
    PathOf(dir, "test_" + testId + "_summary.json")
  }

  /** The backup file `_save_test_results` writes. */
  function BackupPath(dir: string, testId: string): string {
    PathOf(dir, "test_" + testId + "_results.json")
  }

  /** `Path.glob(prefix*suffix)` within one directory: `*` matches any run of characters
      other than the path separator. */
  predicate GlobMatch(path: string, prefix: string, suffix: string) {
    |prefix| + |suffix| <= |path| && StartsWith(path, prefix) && EndsWith(path, suffix)
    && '/' !in path[|prefix|..|path| - |suffix|]
  }

  lemma GlobMatchOf(prefix: string, middle: string, suffix: string)
    requires '/' !in middle
    ensures GlobMatch(prefix + middle + suffix, prefix, suffix)
  {
    var path := prefix + middle + suffix;
    assert path[..|prefix|] == prefix;
    assert path[|path| - |suffix|..] == suffix;
    assert path[|prefix|..|path| - |suffix|] == middle;
  }

  /** The files `_cleanup_files` deletes: the script, and every `<stem>_*.json` and
      `<stem>_*.txt` beside it. */
  predicate IsRunArtifact(dir: string, testId: string, path: string) {
    path == ScriptPath(dir, testId)
    || GlobMatch(path, PathOf(dir, Stem(testId) + "_"), ".json")
    || GlobMatch(path, PathOf(dir, Stem(testId) + "_"), ".txt")
  }

  /** The directory after cleanup: every run artifact gone, every other file untouched. */
  function Cleaned(files: map<string, FileContent>, dir: string, testId: string): map<string, FileContent> {
    map p | p in files && !IsRunArtifact(dir, testId, p) :: files[p]
  }

  /** The paths `glob(<prefix>*.json)` and `glob(<prefix>*.txt)` find. */
  function GlobMatches(files: map<string, FileContent>, prefix: string): (r: set<string>)
    ensures forall p :: p in r <==> p in files && (GlobMatch(p, prefix, ".json") || GlobMatch(p, prefix, ".txt"))
  {
    set p | p in files && (GlobMatch(p, prefix, ".json") || GlobMatch(p, prefix, ".txt"))
  }

  /** Removing the script and then every glob match leaves exactly `Cleaned`. */
  lemma CleanupSteps(original: map<string, FileContent>, start: map<string, FileContent>,
                     files: map<string, FileContent>, matched: set<string>, dir: string, testId: string)
    requires start.Keys == original.Keys - {ScriptPath(dir, testId)}
    requires forall p :: p in start ==> start[p] == original[p]
    requires matched == GlobMatches(start, PathOf(dir, Stem(testId) + "_"))
    requires files.Keys == start.Keys - matched
    requires forall p :: p in files ==> files[p] == start[p]
    ensures files == Cleaned(original, dir, testId)
  {
    var cleaned := Cleaned(original, dir, testId);
    forall p ensures p in files <==> p in cleaned {
      if p in original && !IsRunArtifact(dir, testId, p) {
        assert p in start && p !in matched;
      }
    }
  }

  // ----- the k6 command line -----

  /** The options forwarded to k6, present keys only, in the fixed order vus, duration,
      iterations; each value is its `str()` rendering. */
  function Overrides(options: map<string, string>): seq<(string, string)> {
    (if "vus" in options then [("vus", options["vus"])] else [])
    + (if "duration" in options then [("duration", options["duration"])] else [])
    + (if "iterations" in options then [("iterations", options["iterations"])] else [])
  }

  /** `--name value` for each pair. */
  function Flags(pairs: seq<(string, string)>): seq<string> {
    if pairs == [] then [] else ["--" + pairs[0].0, pairs[0].1] + Flags(pairs[1..])
  }

  /** What a k6 command line asks for. */
  datatype Invocation = Invocation(
    streamOutput: string,
    summaryExport: string,
    overrides: seq<(string, string)>,
    script: string)

  /** Reads `--name value` pairs back. */
  function ParsePairs(args: seq<string>): Option<seq<(string, string)>> {
    if args == [] then Some([])
    else if |args| < 2 || |args[0]| < 2 || args[0][..2] != "--" then None
    else
      var rest := ParsePairs(args[2..]);
      if rest.Some? then Some([(args[0][2..], args[1])] + rest.value) else None
  }

  /** Reads a `k6 run --out json=<stream> --summary-export <summary> [--name value]... <script>`
      command line back. */
  function ParseCommand(cmd: seq<string>): Option<Invocation> {
    if |cmd| >= 7 && cmd[0] == "k6" && cmd[1] == "run" && cmd[2] == "--out"
       && |cmd[3]| >= 5 && cmd[3][..5] == "json=" && cmd[4] == "--summary-export"
    then
      var pairs := ParsePairs(cmd[6..|cmd| - 1]);
      if pairs.Some? then Some(Invocation(cmd[3][5..], cmd[5], pairs.value, cmd[|cmd| - 1])) else None
    else None
  }

  lemma {:induction false} ParseFlags(pairs: seq<(string, string)>)
    ensures |Flags(pairs)| == 2 * |pairs|
    ensures ParsePairs(Flags(pairs)) == Some(pairs)
  {
    if pairs != [] {
      ParseFlags(pairs[1..]);
      var f := Flags(pairs);
      assert f[0] == "--" + pairs[0].0 && f[1] == pairs[0].1;
      assert f[2..] == Flags(pairs[1..]);
      assert [(pairs[0].0, pairs[0].1)] + pairs[1..] == pairs;
      assert ("--" + pairs[0].0)[..2] == "--";
      assert ("--" + pairs[0].0)[2..] == pairs[0].0;
    }
  }

  /** The invocation the runner intends for a test. */
  function ExpectedInvocation(dir: string, testId: string, options: map<string, string>): Invocation {
    Invocation(PathOf(dir, Stem(testId) + "_results.json"), PathOf(dir, Stem(testId) + "_summary.json"),
               Overrides(options), ScriptPath(dir, testId))
  }

  /** `_prepare_k6_command`: the command line reads back as the intended invocation, and
      has seven fixed words plus two per forwarded option. */
  method PrepareCommand(dir: string, testId: string, options: map<string, string>) returns (cmd: seq<string>)
    ensures ParseCommand(cmd) == Some(ExpectedInvocation(dir, testId, options))
    ensures |cmd| == 7 + 2 * |Overrides(options)|
    ensures cmd[..2] == ["k6", "run"] && cmd[|cmd| - 1] == ScriptPath(dir, testId)
  {
    var stem := Stem(testId);
    var scriptFile := ScriptPath(dir, testId);
    cmd := ["k6", "run"];
    var jsonOutputFile := PathOf(dir, stem + "_results.json");
    cmd := cmd + ["--out", "json=" + jsonOutputFile];
    cmd := cmd + ["--summary-export", PathOf(dir, stem + "_summary.json")];
    ghost var fixed := cmd;
    assert fixed == ["k6", "run", "--out", "json=" + jsonOutputFile, "--summary-export", PathOf(dir, stem + "_summary.json")];
    if "vus" in options {
      cmd := cmd + ["--vus", options["vus"]];
    }
    if "duration" in options {
      cmd := cmd + ["--duration", options["duration"]];
    }
    if "iterations" in options {
      cmd := cmd + ["--iterations", options["iterations"]];
    }
    assert "--" + "vus" == "--vus" && "--" + "duration" == "--duration" && "--" + "iterations" == "--iterations";
    FlagsOfOverrides(options);
    assert cmd == fixed + Flags(Overrides(options));
    cmd := cmd + [scriptFile];
    assert cmd == fixed + Flags(Overrides(options)) + [scriptFile];
    CommandParses(jsonOutputFile, PathOf(dir, stem + "_summary.json"), Overrides(options), scriptFile);
  }

  /** A command line of this shape reads back as its parts. */
  lemma CommandParses(stream: string, summary: string, pairs: seq<(string, string)>, script: string)
    ensures var cmd := ["k6", "run", "--out", "json=" + stream, "--summary-export", summary] + Flags(pairs) + [script];
      ParseCommand(cmd) == Some(Invocation(stream, summary, pairs, script)) && |cmd| == 7 + 2 * |pairs|
      && cmd[..2] == ["k6", "run"] && cmd[|cmd| - 1] == script
  {
    var cmd := ["k6", "run", "--out", "json=" + stream, "--summary-export", summary] + Flags(pairs) + [script];
    ParseFlags(pairs);
    assert cmd[6..|cmd| - 1] == Flags(pairs);
    assert ("json=" + stream)[..5] == "json=";
    assert ("json=" + stream)[5..] == stream;
  }

  lemma FlagsOfOverrides(options: map<string, string>)
    ensures Flags(Overrides(options))
      == (if "vus" in options then ["--" + "vus", options["vus"]] else [])
       + (if "duration" in options then ["--" + "duration", options["duration"]] else [])
       + (if "iterations" in options then ["--" + "iterations", options["iterations"]] else [])
  {
    var a: seq<(string, string)> := if "vus" in options then [("vus", options["vus"])] else [];
    var b: seq<(string, string)> := if "duration" in options then [("duration", options["duration"])] else [];
    var c: seq<(string, string)> := if "iterations" in options then [("iterations", options["iterations"])] else [];
    FlagsAppend(a, b);
    FlagsAppend(a + b, c);
  }

  lemma {:induction false} FlagsAppend(a: seq<(string, string)>, b: seq<(string, string)>)
    ensures Flags(a + b) == Flags(a) + Flags(b)
  {
    if a == [] {
      assert a + b == b;
    } else {
      assert (a + b)[1..] == a[1..] + b;
      FlagsAppend(a[1..], b);
    }
  }

  /** The options of `test_prepare_k6_command_with_options` become three flag pairs in
      the fixed order, and no options add no flag. */
  lemma OptionsFixture()
    ensures Flags(Overrides(map["vus" := "20", "duration" := "2m", "iterations" := "1000"]))
      == ["--vus", "20", "--duration", "2m", "--iterations", "1000"]
    ensures Overrides(map[]) == []
  {
    var options := map["vus" := "20", "duration" := "2m", "iterations" := "1000"];
    FlagsOfOverrides(options);
    assert "--" + "vus" == "--vus" && "--" + "duration" == "--duration" && "--" + "iterations" == "--iterations";
    assert options["vus"] == "20" && options["duration"] == "2m" && options["iterations"] == "1000";
  }

  /** The summary file k6 is told to export is the one the runner reads back, and the
      stream output k6 is told to write is the very path of the backup. */
  lemma CommandPathsAgree(dir: string, testId: string, options: map<string, string>)
    ensures ExpectedInvocation(dir, testId, options).summaryExport == SummaryPath(dir, testId)
    ensures ExpectedInvocation(dir, testId, options).streamOutput == BackupPath(dir, testId)
  {
  }

  /** The run's artifacts include its backup, so a successful run deletes the backup it
      has just written. */
  lemma BackupIsRunArtifact(dir: string, testId: string)
    ensures IsRunArtifact(dir, testId, BackupPath(dir, testId))
    ensures IsRunArtifact(dir, testId, SummaryPath(dir, testId))
    ensures IsRunArtifact(dir, testId, ScriptPath(dir, testId))
  {
    var prefix := PathOf(dir, Stem(testId) + "_");
    assert BackupPath(dir, testId) == prefix + "results" + ".json";
    assert SummaryPath(dir, testId) == prefix + "summary" + ".json";
    GlobMatchOf(prefix, "results", ".json");
    GlobMatchOf(prefix, "summary", ".json");
  }

  // ----- one run -----

  /** What k6 did: its exit code, its console text, whether it wrote its metric stream,
      and the summary it exported (`None`: none; `Some(None)`: not parseable). */
  datatype K6Process = K6Process(
    exitCode: int,
    console: string,
    writesStreamOutput: bool,
    summary: Option<Option<SummaryExport>>)

  /** Everything a run depends on besides its arguments and the stored state. */
  datatype RunEnvironment = RunEnvironment(
    scriptWriteOk: bool,
    process: K6Process,
    executionTime: real,
    historyOk: bool,
    windowStart: int -> Option<Timestamp>,
    aiReply: Result<AiVerdict, string>,
    backupWriteOk: bool,
    dbWriteOk: bool)

  /** Why `run_test` raised `K6RunnerError`. */
  datatype RunError =
    | ScriptWriteFailed
    | K6Failed(exitCode: int, console: string)
    | SummaryMissing
    | SummaryUnreadable
    | BackupWriteFailed

  /** The files k6 leaves behind. */
  function K6Writes(files: map<string, FileContent>, inv: Invocation, p: K6Process): map<string, FileContent> {
    var streamed := if p.writesStreamOutput then files[inv.streamOutput := StreamOutput] else files;
    if p.summary.Some? then streamed[inv.summaryExport := SummaryFile(p.summary.value)] else streamed
  }

  /** Reading the summary export: absent, unparseable, or a document. */
  function ReadSummary(files: map<string, FileContent>, path: string): Result<SummaryExport, RunError> {
    if path !in files then Failure(SummaryMissing)
    else match files[path]
      case SummaryFile(Some(doc)) => Success(doc)
      case _ => Failure(SummaryUnreadable)
  }

  /** The analysis `analyze_results` returns. */
  function AnalysisFor(m: Metrics, reply: Result<AiVerdict, string>): Report {
    if reply.Success? then WithDefaults(reply.value) else RuleReport(m)
  }

  function SummaryOf(testId: string, timestamp: Timestamp, script: string, options: map<string, string>,
                     env: RunEnvironment, doc: SummaryExport): TestSummary
  {
    TestSummary(testId, timestamp, env.executionTime, script, options, Extract(doc),
                AnalysisFor(Extract(doc), env.aiReply), doc, env.process.console)
  }

  /** The directory once k6 has run. */
  function FilesAfterK6(files: map<string, FileContent>, dir: string, testId: string, script: string,
                        options: map<string, string>, env: RunEnvironment): map<string, FileContent>
  {
    K6Writes(files[ScriptPath(dir, testId) := ScriptSource(script)], ExpectedInvocation(dir, testId, options), env.process)
  }

  /** What `_execute_k6_test` gives back: the exit failure, or the summary read back. */
  function K6Read(files: map<string, FileContent>, dir: string, testId: string, script: string,
                  options: map<string, string>, env: RunEnvironment): Result<SummaryExport, RunError>
  {
    if env.process.exitCode != 0 then Failure(K6Failed(env.process.exitCode, env.process.console))
    else ReadSummary(FilesAfterK6(files, dir, testId, script, options, env), SummaryPath(dir, testId))
  }

  /** `run_test`'s outcome once k6 has run. */
  function OutcomeAfterRead(read: Result<SummaryExport, RunError>, testId: string, timestamp: Timestamp,
                            script: string, options: map<string, string>, env: RunEnvironment): Result<TestSummary, RunError>
  {
    match read
    case Failure(e) => Failure(e)
    case Success(doc) =>
      if !env.backupWriteOk then Failure(BackupWriteFailed)
      else Success(SummaryOf(testId, timestamp, script, options, env, doc))
  }

  /** `run_test`'s outcome. */
  function RunOutcome(files: map<string, FileContent>, dir: string, testId: string, timestamp: Timestamp,
                      script: string, options: map<string, string>, env: RunEnvironment): Result<TestSummary, RunError>
  {
    if !env.scriptWriteOk then Failure(ScriptWriteFailed)
    else OutcomeAfterRead(K6Read(files, dir, testId, script, options, env), testId, timestamp, script, options, env)
  }

  /** The directory after `run_test`: unchanged when the script cannot be written, left
      as k6 left it on any later failure, and cleaned after the backup on success. */
  function FilesAfterRun(files: map<string, FileContent>, dir: string, testId: string, script: string,
                         options: map<string, string>, env: RunEnvironment,
                         outcome: Result<TestSummary, RunError>): map<string, FileContent>
  {
    if !env.scriptWriteOk then files
    else FilesAfterSave(FilesAfterK6(files, dir, testId, script, options, env), dir, testId, outcome)
  }

  /** The directory once the run has ended after k6: as k6 left it on a failure, cleaned
      after the backup on success. */
  function FilesAfterSave(files: map<string, FileContent>, dir: string, testId: string,
                          outcome: Result<TestSummary, RunError>): map<string, FileContent>
  {
    if outcome.Failure? then files
    else Cleaned(files[BackupPath(dir, testId) := BackupFile(outcome.value)], dir, testId)
  }

  /** The table and its AUTOINCREMENT sequence after `run_test`: one row appended, with
      the next id, for a successful run whose save succeeds and whose test id is new;
      otherwise both unchanged. */
  function TableAfterRun(rows: seq<Row>, lastId: int, outcome: Result<TestSummary, RunError>, dbWriteOk: bool)
    : (seq<Row>, int)
  {
    if outcome.Success? && dbWriteOk && !HasTestId(rows, outcome.value.testId)
    then (rows + [EncodeRow(lastId + 1, outcome.value)], lastId + 1)
    else (rows, lastId)
  }

  /** What k6 exported, read back from the summary path: for a fresh test id nothing
      else is at that path. */
  function ExportedSummary(p: K6Process): Result<SummaryExport, RunError> {
    if p.summary.None? then Failure(SummaryMissing)
    else if p.summary.value.None? then Failure(SummaryUnreadable)
    else Success(p.summary.value.value)
  }

  lemma SummaryReadBack(files: map<string, FileContent>, dir: string, testId: string, script: string,
                        options: map<string, string>, env: RunEnvironment)
    requires SummaryPath(dir, testId) !in files
    ensures ReadSummary(FilesAfterK6(files, dir, testId, script, options, env), SummaryPath(dir, testId))
      == ExportedSummary(env.process)
  {
    CommandPathsAgree(dir, testId, options);
    var s := SummaryPath(dir, testId);
    var inv := ExpectedInvocation(dir, testId, options);
    if env.process.summary.None? {
      assert s != ScriptPath(dir, testId) by {
        assert s[|s| - 1] == 'n' && ScriptPath(dir, testId)[|ScriptPath(dir, testId)| - 1] == 's';
      }
      assert s != inv.streamOutput by {
        var prefix := PathOf(dir, "test_" + testId + "_");
        assert s == prefix + "summary.json";
        assert inv.streamOutput == prefix + "results.json";
        assert s[|prefix|] == 's' && inv.streamOutput[|prefix|] == 'r';
      }
    }
  }

  /** For a fresh test id a run succeeds exactly when the script is written, k6 exits 0
      and exports a readable summary, and the backup is written; the summary then
      carries the metrics read from that export and the AI verdict or, failing that,
      the rules' report. */
  lemma RunOutcomeCases(files: map<string, FileContent>, dir: string, testId: string, timestamp: Timestamp,
                        script: string, options: map<string, string>, env: RunEnvironment)
    requires SummaryPath(dir, testId) !in files
    ensures var outcome := RunOutcome(files, dir, testId, timestamp, script, options, env);
      outcome.Success? <==>
        env.scriptWriteOk && env.process.exitCode == 0 && ExportedSummary(env.process).Success? && env.backupWriteOk
    ensures var outcome := RunOutcome(files, dir, testId, timestamp, script, options, env);
      outcome.Success? ==>
        var doc := ExportedSummary(env.process).value;
        outcome.value.testId == testId && outcome.value.metrics == Extract(doc)
        && outcome.value.rawOutput == doc
        && outcome.value.analysis == (if env.aiReply.Success? then WithDefaults(env.aiReply.value) else RuleReport(Extract(doc)))
    ensures env.scriptWriteOk && env.process.exitCode == 0 && ExportedSummary(env.process).Failure? ==>
      RunOutcome(files, dir, testId, timestamp, script, options, env) == Failure(ExportedSummary(env.process).error)
  {
    SummaryReadBack(files, dir, testId, script, options, env);
  }

  /** A successful run leaves no file of its own behind, not even the backup, and keeps
      every other file as it was. */
  lemma SuccessLeavesNoArtifacts(files: map<string, FileContent>, dir: string, testId: string, timestamp: Timestamp,
                                 script: string, options: map<string, string>, env: RunEnvironment)
    requires RunOutcome(files, dir, testId, timestamp, script, options, env).Success?
    ensures var after := FilesAfterRun(files, dir, testId, script, options, env, RunOutcome(files, dir, testId, timestamp, script, options, env));
      BackupPath(dir, testId) !in after && ScriptPath(dir, testId) !in after && SummaryPath(dir, testId) !in after
      && forall p :: p in after ==> !IsRunArtifact(dir, testId, p)
    ensures var after := FilesAfterRun(files, dir, testId, script, options, env, RunOutcome(files, dir, testId, timestamp, script, options, env));
      forall p :: p in files && !IsRunArtifact(dir, testId, p) ==> p in after && after[p] == files[p]
  {
    BackupIsRunArtifact(dir, testId);
    CommandPathsAgree(dir, testId, options);
    var after := FilesAfterRun(files, dir, testId, script, options, env, RunOutcome(files, dir, testId, timestamp, script, options, env));
    forall p | p in files && !IsRunArtifact(dir, testId, p) ensures p in after && after[p] == files[p] {
      var inv := ExpectedInvocation(dir, testId, options);
      assert p != inv.streamOutput && p != inv.summaryExport;
    }
  }

  // ----- the history -----

  /** One history entry: a database summary, or the summary fields of a backup file. */
  datatype HistoryEntry =
    | FromDatabase(overview: TestOverview)
    | FromBackup(testId: string, timestamp: Timestamp, executionTime: real, metrics: Metrics, analysis: Report)

  /** `results_dir.glob("test_*_results.json")`. */
  function IsBackupListing(dir: string): string -> bool {
    p => GlobMatch(p, PathOf(dir, "test_"), "_results.json")
  }

  /** The newest `limit` backup names by `sorted()` order, most recent first:
      `reversed(sorted(...)[-limit:])`. */
  function FallbackPaths(dirOrder: seq<string>, dir: string, limit: int): seq<string> {
    Reverse(TakeLast(SortBy(Filter(dirOrder, IsBackupListing(dir)), StrLe), limit))
  }

  /** The entries read from those files; a file that is not a backup fails to load and
      is skipped. */
  function BackupEntries(files: map<string, FileContent>, paths: seq<string>): seq<HistoryEntry> {
    if paths == [] then []
    else
      (if paths[0] in files && files[paths[0]].BackupFile? then
         var s := files[paths[0]].summary;
         [FromBackup(s.testId, s.timestamp, s.executionTime, s.metrics, s.analysis)]
       else [])
      + BackupEntries(files, paths[1..])
  }

  function FallbackHistory(files: map<string, FileContent>, dirOrder: seq<string>, dir: string, limit: int): seq<HistoryEntry> {
    BackupEntries(files, FallbackPaths(dirOrder, dir, limit))
  }

  lemma StrLeTotalPreorder()
    ensures TotalPreorder(StrLe)
  {
    forall a, b ensures StrLe(a, b) || StrLe(b, a) {
      StrLeTotal(a, b);
    }
    forall a, b, c | StrLe(a, b) && StrLe(b, c) ensures StrLe(a, c) {
      StrLeTransitive(a, b, c);
    }
  }

  lemma SuffixSorted<T>(s: seq<T>, from: int, le: (T, T) -> bool)
    requires 0 <= from <= |s| && SortedBy(s, le)
    ensures SortedBy(s[from..], le)
  {
    var r := s[from..];
    forall i, j | 0 <= i < j < |r| ensures le(r[i], r[j]) {
      assert r[i] == s[from + i] && r[j] == s[from + j];
    }
  }

  lemma ReverseDescending<T>(s: seq<T>, le: (T, T) -> bool)
    requires SortedBy(s, le)
    ensures forall i, j :: 0 <= i < j < |Reverse(s)| ==> le(Reverse(s)[j], Reverse(s)[i])
  {
    var r := Reverse(s);
    forall i, j | 0 <= i < j < |r| ensures le(r[j], r[i]) {
      assert r[i] == s[|s| - 1 - i] && r[j] == s[|s| - 1 - j];
    }
  }

  /** The fallback reads at most `limit` backups (all of them for `limit == 0`, where
      `[-0:]` is the whole list), in descending name order: by name, which for random
      test ids is not the order of time. */
  lemma FallbackPathsOrdered(dirOrder: seq<string>, dir: string, limit: int)
    ensures var paths := FallbackPaths(dirOrder, dir, limit);
      (limit > 0 ==> |paths| <= limit)
      && (limit == 0 ==> |paths| == |Filter(dirOrder, IsBackupListing(dir))|)
      && (forall i, j :: 0 <= i < j < |paths| ==> StrLe(paths[j], paths[i]))
  {
    var listed := Filter(dirOrder, IsBackupListing(dir));
    var sorted := SortBy(listed, StrLe);
    var kept := TakeLast(sorted, limit);
    StrLeTotalPreorder();
    SortBySorted(listed, StrLe);
    assert |multiset(sorted)| == |multiset(listed)|;
    SuffixSorted(sorted, |sorted| - |kept|, StrLe);
    ReverseDescending(kept, StrLe);
  }

  lemma ReverseMembers<T>(s: seq<T>)
    ensures forall x :: x in Reverse(s) <==> x in s
  {
    var r := Reverse(s);
    forall x | x in r ensures x in s {
      var i :| 0 <= i < |r| && r[i] == x;
      assert s[|s| - 1 - i] == x;
    }
    forall x | x in s ensures x in r {
      var i :| 0 <= i < |s| && s[i] == x;
      assert r[|s| - 1 - i] == x;
    }
  }

  /** In a sorted sequence, what `[-k:]` drops precedes what it keeps. */
  lemma DroppedPrecedeKept<T>(sorted: seq<T>, le: (T, T) -> bool, k: int, x: T, y: T)
    requires SortedBy(sorted, le)
    requires x in sorted && x !in TakeLast(sorted, k) && y in TakeLast(sorted, k)
    ensures le(x, y)
  {
    var kept := TakeLast(sorted, k);
    var from := |sorted| - |kept|;
    var i :| 0 <= i < |sorted| && sorted[i] == x;
    var j :| 0 <= j < |kept| && kept[j] == y;
    assert kept[j] == sorted[from + j];
    assert i < from;
  }

  /** `dirOrder` lists the directory `files`: every file, once. */
  predicate Listing(files: map<string, FileContent>, dirOrder: seq<string>) {
    (forall p :: p in dirOrder ==> p in files)
    && (forall p :: p in files ==> p in dirOrder)
    && forall i, j :: 0 <= i < j < |dirOrder| ==> dirOrder[i] != dirOrder[j]
  }

  /** When `dirOrder` lists the directory, the fallback reads backups of the directory
      only, all of them for `limit == 0`, and otherwise the ones with the greatest
      names: every backup it skips sorts before every backup it reads. */
  lemma FallbackPathsListed(files: map<string, FileContent>, dirOrder: seq<string>, dir: string, limit: int)
    requires Listing(files, dirOrder)
    ensures forall p :: p in FallbackPaths(dirOrder, dir, limit) ==> p in files && IsBackupListing(dir)(p)
    ensures limit == 0 ==>
      forall p :: p in files && IsBackupListing(dir)(p) ==> p in FallbackPaths(dirOrder, dir, limit)
    ensures forall p, q ::
      (p in files && IsBackupListing(dir)(p) && p !in FallbackPaths(dirOrder, dir, limit)
       && q in FallbackPaths(dirOrder, dir, limit)) ==> StrLe(p, q)
  {
    var listed := Filter(dirOrder, IsBackupListing(dir));
    var sorted := SortBy(listed, StrLe);
    var kept := TakeLast(sorted, limit);
    var paths := FallbackPaths(dirOrder, dir, limit);
    ReverseMembers(kept);
    forall x | x in kept ensures x in listed {
      assert x in sorted[|sorted| - |kept|..];
      assert x in multiset(sorted);
    }
    forall x | x in listed ensures x in sorted {
      assert x in multiset(listed);
    }
    StrLeTotalPreorder();
    SortBySorted(listed, StrLe);
    forall p, q | p in files && IsBackupListing(dir)(p) && p !in paths && q in paths ensures StrLe(p, q) {
      assert p in listed && p in sorted;
      DroppedPrecedeKept(sorted, StrLe, limit, p, q);
    }
  }

  /** `K6Runner`: the results directory and the database it saves to. */
  class K6Runner {
    const dir: string
    const db: DatabaseService
    var files: map<string, FileContent>

    /** `results_dir.mkdir(exist_ok=True)` keeps whatever the directory held. */
    constructor (resultsDir: string, database: DatabaseService, existing: map<string, FileContent>)
      ensures dir == resultsDir && db == database && files == existing
    {
      dir := resultsDir;
      db := database;
      files := existing;
    }

    /** `_create_script_file`. */
    method CreateScriptFile(testId: string, script: string)
      modifies this`files
      ensures files == old(files)[ScriptPath(dir, testId) := ScriptSource(script)]
    {
      files := files[ScriptPath(dir, testId) := ScriptSource(script)];
    }

    /** `_cleanup_files`: removes the script if present, then each match of the two globs. */
    method CleanupFiles(testId: string)
      modifies this`files
      ensures files == Cleaned(old(files), dir, testId)
    {
      var remaining := files;
      var scriptFile := ScriptPath(dir, testId);
      if scriptFile in remaining {
        remaining := remaining - {scriptFile};
      }
      ghost var start := remaining;
      var matches := GlobMatches(remaining, PathOf(dir, Stem(testId) + "_"));
      ghost var all := matches;
      while matches != {}
        invariant matches <= all && all <= start.Keys
        invariant remaining.Keys == start.Keys - (all - matches)
        invariant forall p :: p in remaining ==> remaining[p] == start[p]
        decreases |matches|
      {
        var p :| p in matches;
        remaining := remaining - {p};
        matches := matches - {p};
      }
      CleanupSteps(files, start, remaining, all, dir, testId);
      files := remaining;
    }

    /** `_create_script_file`, `_prepare_k6_command` and `_execute_k6_test`: k6 runs the
        command built for the test; a non-zero exit fails the run, otherwise the summary
        export is read back. */
    method ExecuteK6(testId: string, script: string, options: map<string, string>, env: RunEnvironment)
      returns (read: Result<SummaryExport, RunError>)
      modifies this`files
      ensures files == FilesAfterK6(old(files), dir, testId, script, options, env)
      ensures read == K6Read(old(files), dir, testId, script, options, env)
    {
      CreateScriptFile(testId, script);
      var cmd := PrepareCommand(dir, testId, options);
      var invocation := ParseCommand(cmd).value;
      files := K6Writes(files, invocation, env.process);
      if env.process.exitCode != 0 {
        return Failure(K6Failed(env.process.exitCode, env.process.console));
      }
      read := ReadSummary(files, SummaryPath(dir, testId));
    }

    /** `_save_test_results` once the backup is written: the database save, whose
        failures are logged and swallowed. */
    method SaveToDatabase(summary: TestSummary, dbWriteOk: bool)
      requires db.Valid()
      modifies db`initialized, db`schemaCreations, db`rows, db`lastId
      ensures db.Valid()
      ensures (db.rows, db.lastId) == TableAfterRun(old(db.rows), old(db.lastId), Success(summary), dbWriteOk)
    {
      if dbWriteOk {
        var saved := db.SaveTestResult(summary);
      }
    }

    /** `run_test` once the summary export is read: the metrics, the last 30 days' history
        and the analysis, gathered into the run's summary. */
    method Summarize(testId: string, timestamp: Timestamp, script: string, options: map<string, string>,
                     env: RunEnvironment, doc: SummaryExport)
      returns (summary: TestSummary)
      requires db.Valid()
      modifies db`initialized, db`schemaCreations
      ensures db.Valid() && db.rows == old(db.rows) && db.lastId == old(db.lastId)
      ensures summary == SummaryOf(testId, timestamp, script, options, env, doc)
    {
      var m := Extract(doc);
      var history: seq<HistoryRecord> := [];
      if env.historyOk {
        history := db.GetHistoricalMetrics(30, 10, env.windowStart);
      }
      var request, analysis := AnalyzeResults(m, history, env.aiReply);
      summary := TestSummary(testId, timestamp, env.executionTime, script, options, m, analysis, doc,
                             env.process.console);
    }

    /** `run_test` once the summary export is read: the summary, the backup, the
        database save and the cleanup. */
    method AnalyzeAndSave(testId: string, timestamp: Timestamp, script: string, options: map<string, string>,
                          env: RunEnvironment, doc: SummaryExport)
      returns (result: Result<TestSummary, RunError>)
      requires db.Valid()
      modifies this`files, db`initialized, db`schemaCreations, db`rows, db`lastId
      ensures db.Valid()
      ensures result == OutcomeAfterRead(Success(doc), testId, timestamp, script, options, env)
      ensures files == FilesAfterSave(old(files), dir, testId, result)
      ensures (db.rows, db.lastId) == TableAfterRun(old(db.rows), old(db.lastId), result, env.dbWriteOk)
    {
      var summary := Summarize(testId, timestamp, script, options, env, doc);
      if !env.backupWriteOk {
        return Failure(BackupWriteFailed);
      }
      files := files[BackupPath(dir, testId) := BackupFile(summary)];
      SaveToDatabase(summary, env.dbWriteOk);
      CleanupFiles(testId);
      result := Success(summary);
    }

    /** `run_test`, with its outcome, the directory afterwards and the database row it
        adds stated in terms of the inputs. */
    method RunTest(testId: string, timestamp: Timestamp, script: string, options: map<string, string>,
                   env: RunEnvironment)
      returns (result: Result<TestSummary, RunError>)
      requires db.Valid()
      modifies this`files, db`initialized, db`schemaCreations, db`rows, db`lastId
      ensures db.Valid()
      ensures result == RunOutcome(old(files), dir, testId, timestamp, script, options, env)
      ensures files == FilesAfterRun(old(files), dir, testId, script, options, env, result)
      ensures (db.rows, db.lastId) == TableAfterRun(old(db.rows), old(db.lastId), result, env.dbWriteOk)
    {
      if !env.scriptWriteOk {
        return Failure(ScriptWriteFailed);
      }
      var read := ExecuteK6(testId, script, options, env);
      if read.Failure? {
        return Failure(read.error);
      }
      result := AnalyzeAndSave(testId, timestamp, script, options, env, read.value);
    }

    /** `get_test_history`: the database's newest `limit` summaries when it answers with
        any; otherwise the backups. `dirOrder` is the directory listing in the order the
        file system yields it. */
    method GetTestHistory(limit: int, dbReadOk: bool, dirOrder: seq<string>) returns (history: seq<HistoryEntry>)
      requires db.Valid() && Listing(files, dirOrder)
      modifies db`initialized, db`schemaCreations
      ensures db.Valid() && db.rows == old(db.rows)
      ensures dbReadOk && History(db.rows, limit, 0) != [] ==>
        history == MapSeq(History(db.rows, limit, 0), (o: TestOverview) => FromDatabase(o))
      ensures !(dbReadOk && History(db.rows, limit, 0) != []) ==>
        history == FallbackHistory(files, dirOrder, dir, limit)
    {
      if dbReadOk {
        var stored := db.GetTestHistory(limit, 0);
        if stored != [] {
          return MapSeq(stored, (o: TestOverview) => FromDatabase(o));
        }
      }
      var paths := FallbackPaths(dirOrder, dir, limit);
      history := BackupEntries(files, paths);
    }
  }
}
