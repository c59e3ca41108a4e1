/**
 * `GeminiClient`: the API-key check of its constructor and the retry loop
 * of `generate_response`. Each model call is an oracle outcome, and each
 * `time.sleep` is recorded as a delay in seconds.
 */
module Gemini {
  import opened Wrappers

  const MaxRetries := 3
  const RetryDelay := 2

  const SafetyMessage := "I cannot answer this question due to content safety restrictions. Please try rephrasing your question."
  const NoResponseMessage := "I couldn't generate a response for this question. Please try again."
  const FailureMessage := "Sorry, I'm experiencing technical difficulties. Please try again later."

  /** What one call of the model gives. */
  datatype Outcome =
      /** the prompt feedback names a block reason */
    | Blocked
      /** a response without parts */
    | NoParts
    | Answer(text: string)
      /** the call raised */
    | Fail

  datatype ClientError = MissingApiKey

  datatype GeminiClient = GeminiClient(apiKey: string)

  /** The constructor: an absent or empty `GEMINI_API_KEY` raises. */
  function NewClient(apiKey: Option<string>): (r: Result<GeminiClient, ClientError>)
    ensures r.Ok? <==> apiKey.Some? && apiKey.value != ""
    ensures r.Ok? ==> r.value.apiKey == apiKey.value
  {
    if apiKey.None? || apiKey.value == "" then Err(MissingApiKey) else Ok(GeminiClient(apiKey.value))
  }

  /** The string returned for an outcome that ends the loop. */
  function Reply(outcome: Outcome): string
    requires !outcome.Fail?
  {
    match outcome
    case Blocked => SafetyMessage
    case NoParts => NoResponseMessage
    case Answer(text) => text
  }

  /** The sleeps after the first `n` failed attempts: 2, 4, ... seconds. */
  function Backoff(n: nat): (delays: seq<int>)
    ensures |delays| == n
    ensures forall k :: 0 <= k < n ==> delays[k] == RetryDelay * (k + 1)
  {
    seq(n, k requires 0 <= k < n => RetryDelay * (k + 1))
  }

  /**
   * The string the retry loop ends with, from attempt `attempt` on: the reply
   * of the first attempt that does not fail, or the fallback string when the
   * remaining attempts all fail.
   */
  function ResponseFrom(outcome: nat -> Outcome, attempt: nat): (text: string)
    ensures (forall k :: attempt <= k < MaxRetries ==> outcome(k).Fail?) ==> text == FailureMessage
    ensures attempt < MaxRetries && !outcome(attempt).Fail? ==> text == Reply(outcome(attempt))
    decreases MaxRetries - attempt
  {
    if attempt >= MaxRetries then FailureMessage
    else if outcome(attempt).Fail? then ResponseFrom(outcome, attempt + 1)
    else Reply(outcome(attempt))
  }

  function Response(outcome: nat -> Outcome): (text: string)
    ensures (forall k :: 0 <= k < MaxRetries ==> outcome(k).Fail?) ==> text == FailureMessage
    ensures !outcome(0).Fail? ==> text == Reply(outcome(0))
    ensures outcome(0).Fail? && !outcome(1).Fail? ==> text == Reply(outcome(1))
    ensures outcome(0).Fail? && outcome(1).Fail? && !outcome(2).Fail? ==> text == Reply(outcome(2))
  {
    ResponseFrom(outcome, 0)
  }

  /**
   * `generate_response`: at most three calls. A blocked prompt, an empty
   * response or an answer ends the loop at once with its string; a failure
   * sleeps 2·(k+1) seconds after attempt k, except after the last, and three
   * failures give the fallback string. It never raises.
   */
  method GenerateResponse(outcome: nat -> Outcome) returns (text: string, calls: nat, sleeps: seq<int>)
    ensures 1 <= calls <= MaxRetries
    ensures forall k :: 0 <= k < calls - 1 ==> outcome(k).Fail?
    ensures calls < MaxRetries ==> !outcome(calls - 1).Fail?
    ensures text == if outcome(calls - 1).Fail? then FailureMessage else Reply(outcome(calls - 1))
    ensures sleeps == Backoff(calls - 1)
    ensures text == Response(outcome)
  {
    calls, sleeps, text := 0, [], "";
    var attempt := 0;
    while attempt < MaxRetries
      invariant 0 <= attempt <= MaxRetries
      invariant calls == attempt
      invariant forall k :: 0 <= k < attempt ==> outcome(k).Fail?
      invariant sleeps == Backoff(if attempt < MaxRetries then attempt else attempt - 1)
      invariant attempt == MaxRetries ==> text == FailureMessage
      invariant Response(outcome) == ResponseFrom(outcome, attempt)
    {
      calls := calls + 1;
      var response := outcome(attempt);
      if response.Blocked? {
        return SafetyMessage, calls, sleeps;
      }
      if response.NoParts? {
        return NoResponseMessage, calls, sleeps;
      }
      if response.Answer? {
        return response.text, calls, sleeps;
      }
      if attempt < MaxRetries - 1 {
        sleeps := sleeps + [RetryDelay * (attempt + 1)];
      } else {
        text := FailureMessage;
      }
      attempt := attempt + 1;
    }
  }
}
