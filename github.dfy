/**
 * The GitHub client: `fetchWithRetry`, the exponential-backoff loop around
 * `fetch`, and the two REST calls built on it (`getWorkflow`, which retries,
 * and `enableWorkflow`, which does not).
 *
 * The network is an oracle: `outcomes[i]` is what `fetch` does on the i-th
 * request of one call, either resolving with a response or rejecting with an
 * error. Sleeping is recorded as the list of delays, in milliseconds.
 */
module GitHub {
  import opened Wrappers
  import opened Types

  /** A response as the client reads it: the status and, when the JSON body is a workflow, that workflow. */
  datatype Response = Response(status: int, body: Option<Workflow>)

  /** What one call to `fetch` does. */
  datatype Attempt = Resp(response: Response) | Throw(error: string)

  /** Why `fetchWithRetry` threw: the last error `fetch` raised, or the fallback error. */
  datatype Failure = Raised(message: string) | AllAttemptsFailed

  /** How `fetchWithRetry` ends: it resolves with a response or it throws. */
  datatype Outcome = Returned(response: Response) | Threw(failure: Failure)

  /** One run of `fetchWithRetry`: how it ended, the delays it slept, the requests it made. */
  datatype Run = Run(outcome: Outcome, delays: seq<int>, requests: nat)

  /** The default arguments of `fetchWithRetry`, used by `getWorkflow`. */
  const DefaultMaxRetries: int := 4
  const DefaultBaseDelay: int := 1000

  /** The retried status class: 500 to 599. */
  predicate IsServerError(status: int) {
    500 <= status < 600
  }

  /** `response.ok`: a status from 200 to 299. */
  predicate IsOk(status: int) {
    200 <= status < 300
  }

  /** An attempt after which the loop would go on if retries were left: a 5xx or a thrown error. */
  predicate Transient(a: Attempt) {
    a.Throw? || IsServerError(a.response.status)
  }

  /** `2 ** n`. */
  function Pow2(n: nat): nat {
    if n == 0 then 1 else 2 * Pow2(n - 1)
  }

  /** The delays slept before attempts 1..k: the i-th one is `baseDelay * 2 ** i`. */
  function Backoff(baseDelay: int, k: nat): (d: seq<int>)
    ensures |d| == k
    ensures forall i :: 0 <= i < k ==> d[i] == baseDelay * Pow2(i)
  {
    if k == 0 then [] else Backoff(baseDelay, k - 1) + [baseDelay * Pow2(k - 1)]
  }

  /**
   * The attempt the loop ends on, searching from attempt `from`: the first
   * attempt that is not transient, or the final attempt `maxRetries`.
   */
  function FinalAttempt(outcomes: seq<Attempt>, maxRetries: nat, from: nat): (k: nat)
    requires from <= maxRetries < |outcomes|
    requires forall i :: 0 <= i < from ==> Transient(outcomes[i])
    ensures from <= k <= maxRetries
    ensures forall i :: 0 <= i < k ==> Transient(outcomes[i])
    ensures k < maxRetries ==> !Transient(outcomes[k])
    decreases maxRetries - from
  {
    if from == maxRetries || !Transient(outcomes[from]) then from
    else FinalAttempt(outcomes, maxRetries, from + 1)
  }

  /** How `fetchWithRetry` ends when its last attempt does `a`. */
  function Settle(a: Attempt): Outcome {
    match a
    case Resp(r) => Returned(r)
    case Throw(e) => Threw(Raised(e))
  }

  /**
   * What `fetchWithRetry` does, in closed form: with no attempt allowed it
   * throws the fallback error; otherwise it makes requests up to the final
   * attempt, sleeps the backoff before each retry, and ends as that attempt did.
   */
  function Retry(outcomes: seq<Attempt>, maxRetries: int, baseDelay: int): (r: Run)
    requires maxRetries < |outcomes|
    ensures r.requests <= if maxRetries < 0 then 0 else maxRetries + 1
    ensures |r.delays| == if r.requests == 0 then 0 else r.requests - 1
  {
    if maxRetries < 0 then Run(Threw(AllAttemptsFailed), [], 0)
    else
      var k := FinalAttempt(outcomes, maxRetries, 0);
      Run(Settle(outcomes[k]), Backoff(baseDelay, k), k + 1)
  }

  /** `fetchWithRetry`: the retry loop over `attempt` and `lastError`. */
  method FetchWithRetry(outcomes: seq<Attempt>, maxRetries: int, baseDelay: int)
    returns (outcome: Outcome, delays: seq<int>, requests: nat)
    requires maxRetries < |outcomes|
    ensures Run(outcome, delays, requests) == Retry(outcomes, maxRetries, baseDelay)
  {
    var lastError: Option<string> := None;
    delays, requests := [], 0;
    var attempt: nat := 0;
    while attempt <= maxRetries
      invariant maxRetries < 0 ==> attempt == 0 && delays == []
      invariant maxRetries >= 0 ==> attempt <= maxRetries + 1
      invariant requests == attempt
      invariant forall i :: 0 <= i < attempt ==> Transient(outcomes[i])
      invariant attempt <= maxRetries ==> delays == Backoff(baseDelay, attempt)
      invariant attempt == 0 ==> lastError == None
      invariant maxRetries >= 0 && attempt == maxRetries + 1 ==>
        outcomes[maxRetries].Throw? && lastError == Some(outcomes[maxRetries].error) &&
        delays == Backoff(baseDelay, maxRetries)
    {
      var a := outcomes[attempt];
      requests := requests + 1;
      match a
      case Resp(response) =>
        if IsServerError(response.status) && attempt < maxRetries {
          delays := delays + [baseDelay * Pow2(attempt)];
          attempt := attempt + 1;
          continue;
        }
        return Returned(response), delays, requests;
      case Throw(e) =>
        lastError := Some(e);
        if attempt < maxRetries {
          delays := delays + [baseDelay * Pow2(attempt)];
        }
        attempt := attempt + 1;
    }
    outcome := if lastError.Some? then Threw(Raised(lastError.value)) else Threw(AllAttemptsFailed);
  }

  /** A response outside 5xx ends the loop on the attempt it arrives on, with no later request or delay. */
  lemma NonServerErrorReturnedAtOnce(outcomes: seq<Attempt>, maxRetries: int, baseDelay: int, k: nat)
    requires k <= maxRetries < |outcomes|
    requires forall i :: 0 <= i < k ==> Transient(outcomes[i])
    requires outcomes[k].Resp? && !IsServerError(outcomes[k].response.status)
    ensures Retry(outcomes, maxRetries, baseDelay)
      == Run(Returned(outcomes[k].response), Backoff(baseDelay, k), k + 1)
  {
  }

  /** A 5xx or an error on attempt k < maxRetries is followed by a sleep of `baseDelay * 2 ** k` and attempt k + 1. */
  lemma TransientRetried(outcomes: seq<Attempt>, maxRetries: int, baseDelay: int, k: nat)
    requires k < maxRetries < |outcomes|
    requires forall i :: 0 <= i <= k ==> Transient(outcomes[i])
    ensures Retry(outcomes, maxRetries, baseDelay).requests >= k + 2
    ensures Retry(outcomes, maxRetries, baseDelay).delays[k] == baseDelay * Pow2(k)
  {
  }

  /** On the final attempt any response, a 5xx included, is returned unchanged. */
  lemma FinalResponseReturned(outcomes: seq<Attempt>, maxRetries: int, baseDelay: int)
    requires 0 <= maxRetries < |outcomes|
    requires forall i :: 0 <= i < maxRetries ==> Transient(outcomes[i])
    requires outcomes[maxRetries].Resp?
    ensures Retry(outcomes, maxRetries, baseDelay)
      == Run(Returned(outcomes[maxRetries].response), Backoff(baseDelay, maxRetries), maxRetries + 1)
  {
  }

  /**
   * `fetchWithRetry` throws exactly when no attempt is allowed or every attempt
   * is transient and the final one throws; it then throws that final error.
   */
  lemma ThrowsOnlyOnFinalError(outcomes: seq<Attempt>, maxRetries: int, baseDelay: int)
    requires maxRetries < |outcomes|
    ensures Retry(outcomes, maxRetries, baseDelay).outcome.Threw? <==>
      maxRetries < 0 ||
      ((forall i :: 0 <= i < maxRetries ==> Transient(outcomes[i])) && outcomes[maxRetries].Throw?)
    ensures maxRetries >= 0 && Retry(outcomes, maxRetries, baseDelay).outcome.Threw? ==>
      Retry(outcomes, maxRetries, baseDelay).outcome.failure == Raised(outcomes[maxRetries].error) &&
      Retry(outcomes, maxRetries, baseDelay).requests == maxRetries + 1
  {
  }

  /** The fallback error 'All retry attempts failed' is thrown exactly when `maxRetries` is negative. */
  lemma FallbackOnlyWithoutAttempts(outcomes: seq<Attempt>, maxRetries: int, baseDelay: int)
    requires maxRetries < |outcomes|
    ensures Retry(outcomes, maxRetries, baseDelay).outcome == Threw(AllAttemptsFailed) <==> maxRetries < 0
  {
  }

  /** With the defaults (4 retries, 1000 ms) at most 5 requests are made and the delays are a prefix of 1s, 2s, 4s, 8s. */
  lemma DefaultSchedule(outcomes: seq<Attempt>)
    requires DefaultMaxRetries < |outcomes|
    ensures Retry(outcomes, DefaultMaxRetries, DefaultBaseDelay).requests <= 5
    ensures Retry(outcomes, DefaultMaxRetries, DefaultBaseDelay).delays
      == [1000, 2000, 4000, 8000][..|Retry(outcomes, DefaultMaxRetries, DefaultBaseDelay).delays|]
  {
  }

  /**
   * `getWorkflow`: one `fetchWithRetry` with the defaults; a non-ok response
   * and a thrown error both become `null`, and otherwise the parsed body is
   * returned. It never throws.
   */
  method GetWorkflow(outcomes: seq<Attempt>) returns (workflow: Option<Workflow>, delays: seq<int>, requests: nat)
    requires DefaultMaxRetries < |outcomes|
    ensures var r := Retry(outcomes, DefaultMaxRetries, DefaultBaseDelay);
      delays == r.delays && requests == r.requests &&
      (workflow.Some? <==> r.outcome.Returned? && IsOk(r.outcome.response.status) && r.outcome.response.body.Some?) &&
      (workflow.Some? ==> workflow == r.outcome.response.body)
  {
    var outcome;
    outcome, delays, requests := FetchWithRetry(outcomes, DefaultMaxRetries, DefaultBaseDelay);
    match outcome
    case Threw(_) =>
      workflow := None;
    case Returned(response) =>
      if !IsOk(response.status) {
        workflow := None;
      } else {
        workflow := response.body;
      }
  }

  /**
   * `enableWorkflow`: a single POST, never retried, whose failure is caught.
   * `accepted` is whether the API took the request (only logged by the source).
   */
  method EnableWorkflow(outcomes: seq<Attempt>) returns (accepted: bool, requests: nat)
    requires |outcomes| >= 1
    ensures requests == 1
    ensures accepted <==> outcomes[0].Resp? && IsOk(outcomes[0].response.status)
  {
    requests := 1;
    match outcomes[0]
    case Throw(_) =>
      accepted := false;
    case Resp(response) =>
      accepted := IsOk(response.status);
  }

  /** Two 503 responses and then a 200: the third request succeeds after sleeping 1000 ms and 2000 ms. */
  lemma SucceedsOnThirdAttempt(w: Workflow, rest: seq<Attempt>)
    requires |rest| >= 2
    ensures var outcomes := [Resp(Response(503, None)), Resp(Response(503, None)), Resp(Response(200, Some(w)))] + rest;
      Retry(outcomes, DefaultMaxRetries, DefaultBaseDelay)
        == Run(Returned(Response(200, Some(w))), [1000, 2000], 3)
  {
  }
}
