# Workflow enabler: a Dafny model

The workflow enabler is a Cloudflare worker. On a timer, or when `/trigger` is
requested, it goes through a fixed list of GitHub repositories and workflow
files. For each one it reads the workflow through the GitHub REST API and,
when a workflow comes back, asks the API to enable it. This project models two parts of it and
proves their properties:

- **The GitHub client** (`github.dfy`, module `GitHub`):
  - `fetchWithRetry` is the exponential-backoff loop around `fetch`. Its model is an imperative method, `FetchWithRetry`, over an attempt counter and a `lastError` variable.
  - The network is an oracle: a sequence of per-request outcomes. Each one is a response (a status and, when the body parses as a workflow, that workflow) or a thrown error.
  - The method returns how the loop ended, the delays it slept and the number of requests it made.
  - It is proved equal to `Retry`, a closed-form description: the loop ends on the first attempt that is not a 5xx or a thrown error, or on the final attempt.
  - `getWorkflow` retries and turns every failure into `null` (`None`). `enableWorkflow` sends one request, never retries and swallows errors.
- **The worker** (`worker.dfy`, module `Worker`):
  - The `fetch` handler's path router.
  - The check cycle (`checkAllWorkflows`, `checkWorkflow`, `enableWorkflowIfDisabled`). The client is an oracle that, for each (repository, workflow) pair, returns a workflow, returns `null` or throws.
  - The cycle is described by the trace of client calls it makes. `CycleTrace` is the specification, and the nested loops of `CheckAllWorkflows` are proved to produce it.

`types.dfy` holds the records of `types.ts`. `wrappers.dfy` holds the `Option` type used for `T | null`.

Notes on the code:

- The enable call is made with the configured workflow name (`workflow.name`), not the numeric id of the fetched workflow. Whatever workflow is fetched for `ci.yml`, the enable call names `ci.yml` (`Worker.WidgetScenarios`).
- `enableWorkflow` does not report failure to its caller. A non-2xx answer or a network error is caught and only logged. The model's `accepted` result is that logged outcome, and the cycle does not depend on it.
- `getWorkflow` does not throw after the retries run out. It returns `null`, just as it does for a non-ok response.

## Model

| member | source | states |
|---|---|---|
| `GitHub.FetchWithRetry` | workflow-enabler/src/github.ts:9-40 | For every network behaviour, the outcome, the slept delays and the request count of the loop are those of `Retry`. |
| `GitHub.Retry` | workflow-enabler/src/github.ts:12-39 | At most `maxRetries + 1` requests are made (none when `maxRetries < 0`), and one delay is slept between each two consecutive requests. |
| `GitHub.FinalAttempt` | workflow-enabler/src/github.ts:12-25 | The attempt the loop ends on is at most `maxRetries`. Every earlier attempt was a 5xx or threw. If it is not the final attempt, it is neither. |
| `GitHub.Backoff` | workflow-enabler/src/github.ts:18-20 | The i-th delay slept is `baseDelay * 2 ** i`. |
| `GitHub.NonServerErrorReturnedAtOnce` | workflow-enabler/src/github.ts:17-25 | A response outside [500,600) on attempt k is returned as is. Exactly k + 1 requests and k delays were made, so nothing follows it. |
| `GitHub.TransientRetried` | workflow-enabler/src/github.ts:17-34 | A 5xx or a thrown error on attempt k < `maxRetries` is followed by a sleep of `baseDelay * 2 ** k` and by attempt k + 1. |
| `GitHub.FinalResponseReturned` | workflow-enabler/src/github.ts:17-25 | Any response on the final attempt, a 5xx included, is returned unchanged after `maxRetries + 1` requests. |
| `GitHub.ThrowsOnlyOnFinalError` | workflow-enabler/src/github.ts:26-39 | The loop throws if and only if no attempt is allowed, or every earlier attempt failed and the final one throws. With attempts allowed, what it throws is the final attempt's error, after `maxRetries + 1` requests. |
| `GitHub.FallbackOnlyWithoutAttempts` | workflow-enabler/src/github.ts:36-39 | The fallback error 'All retry attempts failed' is thrown if and only if `maxRetries` is negative. |
| `GitHub.DefaultSchedule` | workflow-enabler/src/github.ts:9-31 | With the defaults (4 retries, 1000 ms) there are at most 5 requests, and the delays are a prefix of 1000, 2000, 4000, 8000 ms. |
| `GitHub.SucceedsOnThirdAttempt` | workflow-enabler/src/github.ts:12-25 | Two 503 answers and then a 200 give that 200 response after 3 requests and delays of 1000 and 2000 ms. |
| `GitHub.GetWorkflow` | workflow-enabler/src/github.ts:42-73 | Retries with the defaults. Returns the parsed workflow if and only if the loop returned an ok (2xx) response whose body is a workflow. In every other case (non-ok status, a throw, an empty or unparseable body) it returns `None`. It never throws. |
| `GitHub.EnableWorkflow` | workflow-enabler/src/github.ts:75-96 | Exactly one request, even when it is answered with a 5xx. The request is accepted if and only if that one answer is a 2xx response. It never throws. |
| `Worker.Route` | workflow-enabler/src/index.ts:6-22 | Every path is answered with status 200. Only `/trigger` starts a cycle, and its body is "Monitor triggered". The body is "OK" if and only if the path is `/health`. Any other path gets the help text. |
| `Worker.EnableWorkflowIfDisabled` | workflow-enabler/src/index.ts:53-69 | The calls for one pair are its fetch, then its enable exactly when a workflow was returned. A throwing fetch leaves the method as an error. |
| `Worker.CheckAllWorkflows` | workflow-enabler/src/index.ts:29-51 | The nested loops make exactly the calls of `CycleTrace` over the configuration's pairs, repositories outer and workflows inner. A throw from one pair is caught, and nothing is thrown to the caller. |
| `Worker.PairCalls` | workflow-enabler/src/index.ts:37-69 | In the trace, each pair's calls sit together after those of the pairs before it. First comes its fetch. Its enable, with the configured name, follows if and only if the fetch returned a workflow. So there is one fetch and at most one enable per pair. |
| `Worker.EveryPairFetchedInOrder` | workflow-enabler/src/index.ts:37-45 | Whatever the client answers, throws included, the fetch calls of a cycle are exactly one per configured pair, in configuration order. |
| `Worker.DecisionIgnoresFlagAndState` | workflow-enabler/src/index.ts:60-68 | The calls for a found workflow do not depend on `enableIfDeactivated` or on the fetched `state`. Both are fetch then enable by name. |
| `Worker.WidgetScenarios` | workflow-enabler/src/index.ts:60-69 | For `acme/widget` with `ci.yml`: a found workflow is enabled by the name `ci.yml`, and a missing one is fetched only. |

## Left out

- The real `fetch`, the request URLs, the headers and the token. The network is the outcome-sequence parameter of each client operation.
- `setTimeout`: a sleep is recorded as its delay in the returned list. No time passes.
- `response.json()`: the body is an oracle value, a workflow or nothing. A `null` body and a body that fails to parse both give `None`. A JSON value that is not a workflow record is not modelled.
- `response.statusText`, the error messages built from it, all `console.log`/`console.error` output and `new Date().toISOString()`: logging and clock reads only.
- The `!response` test in `enableWorkflow`: `fetch` never resolves to nothing, so that branch is not modelled.
- `ctx.waitUntil` in `/trigger` and the `scheduled` handler: host-runtime scheduling. `Route` only reports that `/trigger` starts a cycle. The cycle itself is `CheckAllWorkflows`, which the `scheduled` handler awaits.
- The outer `try`/`catch` of `checkAllWorkflows`: constructing the client cannot throw in the model, so only the per-pair catch is modelled.
- `Worker.CheckAllWorkflows`: the client is an oracle of per-pair answers, not the `GitHub` module's methods. This lets a throwing fetch exercise the per-pair catch. The concrete `GitHub.GetWorkflow` never throws, and the enable's result does not change the trace.
- `maxRetries` and `baseDelay` are integers in the model, though the source types them as JavaScript numbers. `getWorkflow`, the only caller, passes the integer defaults 4 and 1000. With a fractional `maxRetries` the source behaves differently: for example, 0.5 with a 503 answer throws 'All retry attempts failed' after one request. That case is not modelled.
- `2 ** attempt` as a JavaScript floating-point number: delays are exact integers.
- `workflow-enabler/src/config.ts` (one repository, `yottta/ddns`, `govulncheck.yml`, every 5 minutes): a data literal with no behaviour. The configuration is a parameter.
- `Env` and `ENVIRONMENT`: host environment, not used by the modelled logic.
