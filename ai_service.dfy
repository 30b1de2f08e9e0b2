/** The generation service of backend/app/services/ai_service.py (`AIService`): input
    checks on the entry points, the streamed response of one model call with its
    timeout, the validation of the JSON it returns, and the bounded retry loop with
    exponential backoff. The model's stream, the clock and the JSON decoder are inputs:
    each attempt is described by its start time, its chunks with their arrival times and
    how the stream ends. */
module AiService {
  import opened Wrappers
  import opened Text
  import opened Sequences

  /** `AIServiceError`, by message. */
  datatype AiError =
    | EmptyDescription                        // "Description cannot be empty"
    | DescriptionTooShort                     // "Description too short, ..."
    | EmptyPrompt                             // "Analysis prompt cannot be empty"
    | Timeout(seconds: real)                  // "Generation timeout after N seconds"
    | EmptyResponse                           // "Empty response from AI service"
    | InvalidJson(detail: string)             // "Invalid JSON response from AI service: ..."
    | EmptyScript                             // "Generated script is empty or missing"
    | Exhausted(attempts: int, cause: string) // "Failed to generate content after N attempts: ..."

  /** `settings.AI_MAX_RETRIES` and `settings.AI_TIMEOUT`. */
  datatype Settings = Settings(maxRetries: int, timeout: real)

  const DefaultSettings := Settings(3, 60.0)

  // ----- input checks -----

  /** The shortest stripped description `generate_k6_script` accepts. */
  const MinDescriptionLength := 10

  /** `generate_k6_script`'s checks before any model call. */
  function ValidateDescription(description: string): Result<string, AiError> {
    if Strip(description) == [] then Failure(EmptyDescription)
    else if |Strip(description)| < MinDescriptionLength then Failure(DescriptionTooShort)
    else Success(description)
  }

  /** `analyze_test_results`'s check before any model call. */
  function ValidatePrompt(prompt: string): Result<string, AiError> {
    if Strip(prompt) == [] then Failure(EmptyPrompt) else Success(prompt)
  }

  /** A description is refused as empty exactly when it is empty or all whitespace, as too
      short exactly when it has under ten characters once stripped, and is otherwise
      passed on unchanged. */
  lemma DescriptionChecks(description: string)
    ensures ValidateDescription(description) == Failure(EmptyDescription) <==> AllSpace(description)
    ensures ValidateDescription(description) == Failure(DescriptionTooShort)
      <==> !AllSpace(description) && |Strip(description)| < MinDescriptionLength
    ensures ValidateDescription(description).Success? ==>
      ValidateDescription(description).value == description && |Strip(description)| >= MinDescriptionLength
  {
    StripEmptyIffAllSpace(description);
  }

  lemma PromptChecks(prompt: string)
    ensures ValidatePrompt(prompt).Failure? <==> AllSpace(prompt)
    ensures ValidatePrompt(prompt).Failure? ==> ValidatePrompt(prompt).error == EmptyPrompt
    ensures ValidatePrompt(prompt).Success? ==> ValidatePrompt(prompt).value == prompt
  {
    StripEmptyIffAllSpace(prompt);
  }

  // ----- one attempt -----

  /** One streamed chunk: when it arrived (the clock reading at that point of the loop)
      and its text (`None` and empty text add nothing). */
  datatype Chunk = Chunk(arrival: real, text: string)

  /** How the stream ends after its chunks: normally, or with an exception of the client
      library. */
  datatype StreamEnd = Completed | Broken(message: string)

  /** What `json.loads` gives: a parse error, a value that is not an object, or an object
      with its `k6_script` entry (`None` when absent or null). */
  datatype Json = NotJson(detail: string) | NonObject(kind: string) | Object(k6Script: Option<string>)

  /** Everything one attempt sees. */
  datatype Attempt = Attempt(start: real, chunks: seq<Chunk>, end: StreamEnd)

  /** How an attempt fails: with an `AIServiceError`, or with another exception. */
  datatype AttemptFailure = Raised(error: AiError) | Foreign(message: string)

  /** The concatenated texts of the chunks, in order. */
  function Texts(chunks: seq<Chunk>): string {
    if chunks == [] then "" else Texts(chunks[..|chunks| - 1]) + chunks[|chunks| - 1].text
  }

  lemma {:induction false} TextsAppend(a: seq<Chunk>, b: seq<Chunk>)
    ensures Texts(a + b) == Texts(a) + Texts(b)
    decreases |b|
  {
    if b == [] {
      assert a + b == a;
    } else {
      var last := |b| - 1;
      assert (a + b)[..|a + b| - 1] == a + b[..last];
      TextsAppend(a, b[..last]);
    }
  }

  /** Some chunk arrives more than `timeout` seconds after the start. */
  predicate LateChunk(start: real, chunks: seq<Chunk>, timeout: real) {
    exists i | 0 <= i < |chunks| :: chunks[i].arrival - start > timeout
  }

  /** The response text of a stream, or the timeout. */
  function Collect(start: real, chunks: seq<Chunk>, timeout: real): Result<string, AiError> {
    if LateChunk(start, chunks, timeout) then Failure(Timeout(timeout)) else Success(Texts(chunks))
  }

  /** The chunk loop: checks the elapsed time at each chunk before taking its text. */
  method CollectResponse(start: real, chunks: seq<Chunk>, timeout: real) returns (r: Result<string, AiError>)
    ensures r == Collect(start, chunks, timeout)
  {
    var fullResponse := "";
    var i := 0;
    while i < |chunks|
      invariant 0 <= i <= |chunks|
      invariant fullResponse == Texts(chunks[..i])
      invariant !LateChunk(start, chunks[..i], timeout)
    {
      if chunks[i].arrival - start > timeout {
        assert chunks[i] == chunks[i..][0];
        return Failure(Timeout(timeout));
      }
      assert chunks[..i + 1][..i] == chunks[..i];
      fullResponse := fullResponse + chunks[i].text;
      var taken := chunks[..i + 1];
      assert !LateChunk(start, taken, timeout) by {
        forall j | 0 <= j < |taken| ensures taken[j].arrival - start <= timeout {
          if j < i {
            assert taken[j] == chunks[..i][j];
          }
        }
      }
      i := i + 1;
    }
    assert chunks[..i] == chunks;
    r := Success(fullResponse);
  }

  /** The substrings `_generate_sync` looks for in a generated script. */
  const RequiredPatterns := ["export default function", "http"]

  /** `missing_patterns`: the required substrings the script lacks, in their order. */
  function MissingPatterns(script: string): (missing: seq<string>)
    ensures forall p :: p in missing <==> p in RequiredPatterns && !Contains(script, p)
  {
    Filter(RequiredPatterns, p => !Contains(script, p))
  }

  /** One attempt of `_generate_sync`: a late chunk times out, a broken stream fails with
      the client's exception, a blank response, a response that is not JSON and an
      object without a script are errors, a value that is not an object fails on `.get`,
      and any non-empty script is accepted whether or not it has the required patterns. */
  function AttemptOutcome(a: Attempt, timeout: real, decode: string -> Json): Result<string, AttemptFailure> {
    match Collect(a.start, a.chunks, timeout)
    case Failure(e) => Failure(Raised(e))
    case Success(response) =>
      if a.end.Broken? then Failure(Foreign(a.end.message))
      else if Strip(response) == [] then Failure(Raised(EmptyResponse))
      else match decode(response)
        case NotJson(detail) => Failure(Raised(InvalidJson(detail)))
        case NonObject(kind) => Failure(Foreign("'" + kind + "' object has no attribute 'get'"))
        case Object(script) =>
          if script.None? || script.value == "" then Failure(Raised(EmptyScript)) else Success(script.value)
  }

  /** The script an attempt returns is the `k6_script` of the decoded response; a missing
      pattern never turns it into a failure. */
  lemma AttemptAcceptsAnyScript(a: Attempt, timeout: real, decode: string -> Json)
    ensures AttemptOutcome(a, timeout, decode).Success? <==>
      Collect(a.start, a.chunks, timeout).Success? && a.end == Completed
      && !AllSpace(Texts(a.chunks))
      && decode(Texts(a.chunks)).Object? && decode(Texts(a.chunks)).k6Script.Some?
      && decode(Texts(a.chunks)).k6Script.value != ""
    ensures AttemptOutcome(a, timeout, decode).Success? ==>
      var script := AttemptOutcome(a, timeout, decode).value;
      decode(Texts(a.chunks)) == Object(Some(script)) && |MissingPatterns(script)| <= |RequiredPatterns|
  {
    StripEmptyIffAllSpace(Texts(a.chunks));
  }

  /** The one attempt. */
  method RunAttempt(a: Attempt, timeout: real, decode: string -> Json) returns (o: Result<string, AttemptFailure>)
    ensures o == AttemptOutcome(a, timeout, decode)
  {
    var collected := CollectResponse(a.start, a.chunks, timeout);
    if collected.Failure? {
      return Failure(Raised(collected.error));
    }
    var fullResponse := collected.value;
    if a.end.Broken? {
      return Failure(Foreign(a.end.message));
    }
    if Strip(fullResponse) == [] {
      return Failure(Raised(EmptyResponse));
    }
    var result := decode(fullResponse);
    match result {
      case NotJson(detail) =>
        o := Failure(Raised(InvalidJson(detail)));
      case NonObject(kind) =>
        o := Failure(Foreign("'" + kind + "' object has no attribute 'get'"));
      case Object(script) =>
        if script.None? || script.value == "" {
          o := Failure(Raised(EmptyScript));
        } else {
          // `MissingPatterns(script.value)` is only logged as a warning: it never fails the attempt.
          o := Success(script.value);
        }
    }
  }

  // ----- the retry loop -----

  /** What each attempt in turn yields. */
  function Outcomes(attempts: nat -> Attempt, timeout: real, decode: string -> Json): nat -> Result<string, AttemptFailure> {
    (k: nat) => AttemptOutcome(attempts(k), timeout, decode)
  }

  /** What is raised once the attempts are used up: the last `AIServiceError` as it was,
      any other exception (or none at all) wrapped. */
  function FinalError(last: Option<AttemptFailure>, maxRetries: int): AiError {
    match last
    case Some(Raised(e)) => e
    case Some(Foreign(message)) => Exhausted(maxRetries, message)
    case None => Exhausted(maxRetries, "None")
  }

  /** `_generate_sync`'s result from attempt `k` on, `last` being the failure before it. */
  function Retry(maxRetries: int, k: nat, outcomes: nat -> Result<string, AttemptFailure>,
                 last: Option<AttemptFailure>): Result<string, AiError>
    decreases maxRetries - k
  {
    if k >= maxRetries then Failure(FinalError(last, maxRetries))
    else if outcomes(k).Success? then Success(outcomes(k).value)
    else Retry(maxRetries, k + 1, outcomes, Some(outcomes(k).error))
  }

  /** The number of attempts made from attempt `k` on. */
  function AttemptsMade(maxRetries: int, k: nat, outcomes: nat -> Result<string, AttemptFailure>): nat
    decreases maxRetries - k
  {
    if k >= maxRetries then k
    else if outcomes(k).Success? then k + 1
    else AttemptsMade(maxRetries, k + 1, outcomes)
  }

  function Pow2(n: nat): (p: nat)
    ensures p >= 1
  {
    if n == 0 then 1 else 2 * Pow2(n - 1)
  }

  /** The waits after the first `n` failed attempts: 2, 4, 8, ... seconds. */
  function Backoff(n: nat): (waits: seq<nat>)
    ensures |waits| == n
    ensures forall k :: 0 <= k < n ==> waits[k] == Pow2(k + 1)
  {
    if n == 0 then [] else Backoff(n - 1) + [Pow2(n)]
  }

  /** `_generate_sync`: at most `maxRetries` attempts, a wait of 2^k seconds after failed
      attempt k when another follows, the first success returned. `made` counts the
      attempts and `sleeps` lists the waits in order. */
  method GenerateSync(settings: Settings, attempts: nat -> Attempt, decode: string -> Json)
    returns (result: Result<string, AiError>, made: nat, sleeps: seq<nat>)
    ensures result == Retry(settings.maxRetries, 0, Outcomes(attempts, settings.timeout, decode), None)
    ensures made == AttemptsMade(settings.maxRetries, 0, Outcomes(attempts, settings.timeout, decode))
    ensures sleeps == Backoff(if made == 0 then 0 else made - 1)
  {
    ghost var outcomes := Outcomes(attempts, settings.timeout, decode);
    var retryCount: nat := 0;
    var lastException: Option<AttemptFailure> := None;
    sleeps := [];
    while retryCount < settings.maxRetries
      invariant retryCount == 0 ==> lastException == None
      invariant Retry(settings.maxRetries, 0, outcomes, None)
             == Retry(settings.maxRetries, retryCount, outcomes, lastException)
      invariant AttemptsMade(settings.maxRetries, 0, outcomes) == AttemptsMade(settings.maxRetries, retryCount, outcomes)
      invariant sleeps == Backoff(if retryCount == 0 || retryCount < settings.maxRetries then retryCount else retryCount - 1)
      invariant retryCount > 0 ==> retryCount <= settings.maxRetries
      decreases settings.maxRetries - retryCount
    {
      var outcome := RunAttempt(attempts(retryCount), settings.timeout, decode);
      if outcome.Success? {
        return Success(outcome.value), retryCount + 1, sleeps;
      }
      lastException := Some(outcome.error);
      retryCount := retryCount + 1;
      if retryCount < settings.maxRetries {
        sleeps := sleeps + [Pow2(retryCount)];
      }
    }
    result := Failure(FinalError(lastException, settings.maxRetries));
    made := retryCount;
  }

  /** `generate_k6_script`: the description checks, then the retry loop. */
  method GenerateK6Script(settings: Settings, description: string, attempts: nat -> Attempt, decode: string -> Json)
    returns (result: Result<string, AiError>, made: nat)
    ensures ValidateDescription(description).Failure? ==> result == Failure(ValidateDescription(description).error) && made == 0
    ensures ValidateDescription(description).Success? ==>
      result == Retry(settings.maxRetries, 0, Outcomes(attempts, settings.timeout, decode), None)
      && made == AttemptsMade(settings.maxRetries, 0, Outcomes(attempts, settings.timeout, decode))
  {
    var checked := ValidateDescription(description);
    if checked.Failure? {
      return Failure(checked.error), 0;
    }
    var sleeps;
    result, made, sleeps := GenerateSync(settings, attempts, decode);
  }

  /** `analyze_test_results`: the prompt check, then the retry loop. */
  method AnalyzeTestResults(settings: Settings, prompt: string, attempts: nat -> Attempt, decode: string -> Json)
    returns (result: Result<string, AiError>, made: nat)
    ensures ValidatePrompt(prompt).Failure? ==> result == Failure(EmptyPrompt) && made == 0
    ensures ValidatePrompt(prompt).Success? ==>
      result == Retry(settings.maxRetries, 0, Outcomes(attempts, settings.timeout, decode), None)
      && made == AttemptsMade(settings.maxRetries, 0, Outcomes(attempts, settings.timeout, decode))
  {
    var checked := ValidatePrompt(prompt);
    if checked.Failure? {
      return Failure(EmptyPrompt), 0;
    }
    var sleeps;
    result, made, sleeps := GenerateSync(settings, attempts, decode);
  }

  // ----- properties of the retry loop -----

  /** The loop never makes more than `maxRetries` attempts, and makes at least one when
      `maxRetries` is positive. */
  lemma {:induction false} AttemptsBounded(maxRetries: int, k: nat, outcomes: nat -> Result<string, AttemptFailure>)
    requires k <= maxRetries || k == 0
    ensures k < maxRetries ==> k < AttemptsMade(maxRetries, k, outcomes) <= maxRetries
    ensures maxRetries <= k ==> AttemptsMade(maxRetries, k, outcomes) == k
    decreases maxRetries - k
  {
    if k < maxRetries && outcomes(k).Failure? {
      AttemptsBounded(maxRetries, k + 1, outcomes);
    }
  }

  /** Attempt `i` yields `s` and every attempt from `k` up to it fails. */
  predicate FirstSuccessAt(outcomes: nat -> Result<string, AttemptFailure>, k: nat, i: nat, s: string) {
    k <= i && outcomes(i) == Success(s) && forall j :: k <= j < i ==> outcomes(j).Failure?
  }

  /** The loop succeeds with `s` exactly when some attempt before the bound yields `s`
      and every earlier attempt fails. */
  lemma {:induction false} FirstSuccessWins(maxRetries: int, k: nat, outcomes: nat -> Result<string, AttemptFailure>,
                                            last: Option<AttemptFailure>, s: string)
    ensures Retry(maxRetries, k, outcomes, last) == Success(s) <==>
      exists i: nat :: i < maxRetries && FirstSuccessAt(outcomes, k, i, s)
    decreases maxRetries - k
  {
    if k >= maxRetries {
    } else if outcomes(k).Success? {
      if outcomes(k) == Success(s) {
        assert FirstSuccessAt(outcomes, k, k, s);
      }
      forall i: nat | i < maxRetries && FirstSuccessAt(outcomes, k, i, s) ensures outcomes(k) == Success(s) {
        assert k <= k < i ==> outcomes(k).Failure?;
        assert i == k;
      }
    } else {
      FirstSuccessWins(maxRetries, k + 1, outcomes, Some(outcomes(k).error), s);
      assert Retry(maxRetries, k, outcomes, last) == Retry(maxRetries, k + 1, outcomes, Some(outcomes(k).error));
      if Retry(maxRetries, k, outcomes, last) == Success(s) {
        var i: nat :| i < maxRetries && FirstSuccessAt(outcomes, k + 1, i, s);
        assert FirstSuccessAt(outcomes, k, i, s);
      }
      if exists i: nat :: i < maxRetries && FirstSuccessAt(outcomes, k, i, s) {
        var i: nat :| i < maxRetries && FirstSuccessAt(outcomes, k, i, s);
        assert i != k;
        assert FirstSuccessAt(outcomes, k + 1, i, s);
      }
    }
  }

  /** The loop stops at the first success: it has then made exactly the attempts up to it. */
  lemma {:induction false} StopsAtFirstSuccess(maxRetries: int, k: nat, outcomes: nat -> Result<string, AttemptFailure>,
                                               i: nat, s: string)
    requires i < maxRetries && FirstSuccessAt(outcomes, k, i, s)
    ensures AttemptsMade(maxRetries, k, outcomes) == i + 1
    decreases i - k
  {
    if k < i {
      assert outcomes(k).Failure?;
      StopsAtFirstSuccess(maxRetries, k + 1, outcomes, i, s);
    }
  }

  /** When every attempt fails the loop raises the last failure's `AIServiceError`
      unchanged, or wraps any other exception; with no attempt at all it still raises. */
  lemma {:induction false} AllFailuresRaiseLast(maxRetries: int, k: nat, outcomes: nat -> Result<string, AttemptFailure>,
                                                last: Option<AttemptFailure>)
    requires k < maxRetries
    requires forall j :: k <= j < maxRetries ==> outcomes(j).Failure?
    ensures Retry(maxRetries, k, outcomes, last) == Failure(FinalError(Some(outcomes(maxRetries - 1).error), maxRetries))
    ensures AttemptsMade(maxRetries, k, outcomes) == maxRetries
    decreases maxRetries - k
  {
    if k + 1 < maxRetries {
      AllFailuresRaiseLast(maxRetries, k + 1, outcomes, Some(outcomes(k).error));
    }
  }

  lemma NoAttemptsStillRaise(maxRetries: int, outcomes: nat -> Result<string, AttemptFailure>)
    requires maxRetries <= 0
    ensures Retry(maxRetries, 0, outcomes, None) == Failure(Exhausted(maxRetries, "None"))
    ensures AttemptsMade(maxRetries, 0, outcomes) == 0
  {
  }

  /** With the default three retries a run whose attempts all fail waits 2 then 4
      seconds and raises the third failure. */
  lemma DefaultBackoff(outcomes: nat -> Result<string, AttemptFailure>)
    requires outcomes(0).Failure? && outcomes(1).Failure? && outcomes(2).Failure?
    ensures AttemptsMade(DefaultSettings.maxRetries, 0, outcomes) == 3
    ensures Backoff(AttemptsMade(DefaultSettings.maxRetries, 0, outcomes) - 1) == [2, 4]
    ensures Retry(DefaultSettings.maxRetries, 0, outcomes, None) == Failure(FinalError(Some(outcomes(2).error), 3))
  {
    AllFailuresRaiseLast(3, 0, outcomes, None);
    assert Backoff(2) == [Pow2(1), Pow2(2)];
  }

  /** An answer without a script is retried like any other error: when the next attempt
      produces a script, that script is returned. */
  lemma EmptyScriptIsRetried(settings: Settings, attempts: nat -> Attempt, decode: string -> Json, s: string)
    requires settings.maxRetries >= 2
    requires Outcomes(attempts, settings.timeout, decode)(0) == Failure(Raised(EmptyScript))
    requires Outcomes(attempts, settings.timeout, decode)(1) == Success(s)
    ensures Retry(settings.maxRetries, 0, Outcomes(attempts, settings.timeout, decode), None) == Success(s)
    ensures AttemptsMade(settings.maxRetries, 0, Outcomes(attempts, settings.timeout, decode)) == 2
  {
  }

  /** A chunk arriving after the timeout aborts the attempt however much text came
      before it; otherwise the response is all the chunks' texts in order. */
  lemma CollectCases(start: real, before: seq<Chunk>, late: Chunk, after: seq<Chunk>, timeout: real)
    requires late.arrival - start > timeout
    ensures Collect(start, before + [late] + after, timeout) == Failure(Timeout(timeout))
    ensures !LateChunk(start, before + after, timeout) ==>
      Collect(start, before + after, timeout) == Success(Texts(before) + Texts(after))
  {
    var all := before + [late] + after;
    assert all[|before|] == late;
    TextsAppend(before, after);
  }
}
