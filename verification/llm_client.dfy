/** The language-model client: a call is retried while the service reports a rate
    limit, waiting twice as long each time, for at most five attempts; any other
    error is raised at once. `generate` and `generate_json` turn a failed call
    into a fixed fallback answer. The service is a parameter: `attempt(k)` is
    what the k-th call (from 0) returns (`Ok` with the completion's text) or raises
    (`Err` with the exception's message); the waits are returned instead of slept. */
module LlmClient {
  import opened Wrappers
  import opened Text

  const MaxRetries: nat := 5
  const BaseDelay: int := 2

  /** The model the client asks. */
  const Model := "llama-3.3-70b-versatile"
  const DefaultSystemMessage := "You are a helpful assistant."

  /** An error message reports a rate limit when, lowercased, it mentions
      "rate_limit_exceeded" or the status 429. */
  predicate IsRateLimit(message: string) {
    Contains(Lower(message), "rate_limit_exceeded") || Contains(Lower(message), "429")
  }

  function Pow2(k: nat): (p: int)
    ensures p >= 1
  {
    if k == 0 then 1 else 2 * Pow2(k - 1)
  }

  /** The wait after a rate-limited attempt `a` (from 0): 2·2^a seconds. */
  function Backoff(a: nat): int {
    BaseDelay * Pow2(a)
  }

  /** The waits after the first `n` attempts. */
  function Backoffs(n: nat): (w: seq<int>)
    ensures |w| == n
  {
    if n == 0 then [] else Backoffs(n - 1) + [Backoff(n - 1)]
  }

  /** `_retry_on_rate_limit(func)`: the outcome (`Err` when the last error is
      re-raised), the number of calls and the waits between them. */
  method RetryOnRateLimit<T>(attempt: nat -> Result<T>) returns (r: Result<T>, calls: nat, waits: seq<int>)
    ensures 1 <= calls <= MaxRetries
    ensures forall j :: 0 <= j < calls - 1 ==> attempt(j).Err? && IsRateLimit(attempt(j).error)
    ensures r == attempt(calls - 1)
    ensures r.Err? ==> !IsRateLimit(r.error) || calls == MaxRetries
    ensures waits == Backoffs(calls - 1)
  {
    waits := [];
    calls := 0;
    for a := 0 to MaxRetries
      invariant calls == a && a < MaxRetries
      invariant forall j :: 0 <= j < a ==> attempt(j).Err? && IsRateLimit(attempt(j).error)
      invariant waits == Backoffs(a)
    {
      var outcome := attempt(a);
      calls := calls + 1;
      if outcome.Ok? {
        return outcome, calls, waits;
      }
      if IsRateLimit(outcome.error) {
        if a == MaxRetries - 1 {
          return outcome, calls, waits;
        }
        waits := waits + [Backoff(a)];
      } else {
        return outcome, calls, waits;
      }
    }
    // every attempt either returns or raises, the last one included
    assert false;
  }

  /** What `generate` answers for the outcome of its call: the completion's text,
      or "" when the call failed. */
  function Generate(outcome: Result<string>): (text: string)
    ensures outcome.Ok? ==> text == outcome.value
    ensures outcome.Err? ==> text == ""
  {
    match outcome
    case Ok(content) => content
    case Err(_) => ""
  }

  /** What `generate_json` answers: the completion's text, or the empty JSON object
      when the call failed. */
  function GenerateJson(outcome: Result<string>): (text: string)
    ensures outcome.Ok? ==> text == outcome.value
    ensures outcome.Err? ==> text == "{}"
  {
    match outcome
    case Ok(content) => content
    case Err(_) => "{}"
  }

  /** The system message `generate_json` sends: the caller's, followed by the
      instruction to answer in JSON only. */
  function JsonSystemMessage(system: string): (m: string)
    ensures StartsWith(m, system) && m[|system|..] == "\nReturn ONLY valid JSON."
  {
    system + "\nReturn ONLY valid JSON."
  }

  // ---- Properties ----

  /** The waits double: 2, 4, 8 and 16 seconds for the four retries. */
  lemma BackoffsDouble(n: nat)
    requires n <= MaxRetries
    ensures forall k :: 0 < k < n ==> Backoffs(n)[k] == 2 * Backoffs(n)[k - 1]
    ensures Backoffs(MaxRetries - 1) == [2, 4, 8, 16]
  {
  }

  /** Rate-limit detection ignores case. */
  lemma RateLimitIgnoresCase(message: string)
    ensures IsRateLimit(Lower(message)) <==> IsRateLimit(message)
  {
    LowerIdempotent(message);
  }

  lemma LowerIdempotent(s: string)
    ensures Lower(Lower(s)) == Lower(s)
  {
    LowerNoUpper(Lower(s));
  }
}
