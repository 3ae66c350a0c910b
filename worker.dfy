/**
 * The worker's entry points: the path router of the HTTP handler and the
 * check cycle that walks the configured (repository, workflow) pairs, asks
 * the client for each workflow and enables it when one was found.
 *
 * The client is an oracle here: `replies[p]` is what `getWorkflow` does for
 * the p-th pair of the cycle. The cycle is described by the trace of client
 * calls it makes.
 */
module Worker {
  import opened Types

  /** A call the cycle makes on the GitHub client, with its arguments. */
  datatype Call =
    | GetWorkflowCall(owner: string, repo: string, workflow: string)
    | EnableWorkflowCall(owner: string, repo: string, workflow: string)

  /** One configured (repository, workflow) pair. */
  datatype Pair = Pair(repository: RepositoryConfig, workflow: WorkflowConfig)

  /** What `getWorkflow` does for one pair: return a workflow, return null, or throw. */
  datatype Fetched = Found(workflow: Workflow) | NotFound | FetchRaised(error: string)

  /** An HTTP answer of the worker, and whether answering it starts a check cycle. */
  datatype HttpReply = HttpReply(status: int, body: string, startsCycle: bool)

  /** The help text answered on every path other than `/trigger` and `/health`. */
  const HelpText: string :=
    "GitHub Actions Monitor\n\nEndpoints:\n- /trigger - Manually trigger the monitor\n- /health - Health check\n- POST /reset-alerts - Clear all stored alerts"

  /** The router of the `fetch` handler: every path is answered with status 200. */
  function Route(path: string): (reply: HttpReply)
    ensures reply.status == 200
    ensures reply.startsCycle <==> path == "/trigger"
    ensures path == "/trigger" ==> reply.body == "Monitor triggered"
    ensures reply.body == "OK" <==> path == "/health"
    ensures path != "/trigger" && path != "/health" ==> reply.body == HelpText
  {
    if path == "/trigger" then HttpReply(200, "Monitor triggered", true)
    else if path == "/health" then HttpReply(200, "OK", false)
    else HttpReply(200, HelpText, false)
  }

  /** The pairs of one repository, in the order of its workflows. */
  function PairsOf(r: RepositoryConfig): seq<Pair> {
    seq(|r.workflows|, j requires 0 <= j < |r.workflows| => Pair(r, r.workflows[j]))
  }

  /** All pairs of a configuration: repositories outer, workflows inner. */
  function Pairs(repos: seq<RepositoryConfig>): seq<Pair> {
    if repos == [] then [] else Pairs(repos[..|repos| - 1]) + PairsOf(repos[|repos| - 1])
  }

  /** The fetch call for a pair: owner, repository and configured workflow name. */
  function FetchCall(p: Pair): Call {
    GetWorkflowCall(p.repository.owner, p.repository.repo, p.workflow.name)
  }

  /** The enable call uses the configured workflow name, not the fetched id. */
  function EnableCall(p: Pair): Call {
    EnableWorkflowCall(p.repository.owner, p.repository.repo, p.workflow.name)
  }

  /**
   * The decision of `enableWorkflowIfDisabled`: enable whenever a workflow was
   * returned. The configured `enableIfDeactivated` flag and the fetched
   * `state` take no part in it.
   */
  predicate ShouldEnable(fetched: Fetched, workflow: WorkflowConfig) {
    fetched.Found?
  }

  /** The calls made while checking one pair. */
  function CheckPair(p: Pair, fetched: Fetched): seq<Call> {
    [FetchCall(p)] + if ShouldEnable(fetched, p.workflow) then [EnableCall(p)] else []
  }

  /** The calls made by a cycle over `ps`, pair p answered by `replies[p]`. */
  function CycleTrace(ps: seq<Pair>, replies: seq<Fetched>): seq<Call>
    requires |ps| <= |replies|
  {
    if ps == [] then []
    else CycleTrace(ps[..|ps| - 1], replies) + CheckPair(ps[|ps| - 1], replies[|ps| - 1])
  }

  /** Where the calls of pair p start in the trace. */
  function Offset(ps: seq<Pair>, replies: seq<Fetched>, p: nat): nat
    requires p <= |ps| <= |replies|
  {
    |CycleTrace(ps[..p], replies)|
  }

  /** The fetch calls of a trace, in order. */
  function Fetches(trace: seq<Call>): seq<Call> {
    if trace == [] then []
    else Fetches(trace[..|trace| - 1]) + if trace[|trace| - 1].GetWorkflowCall? then [trace[|trace| - 1]] else []
  }

  /**
   * `checkWorkflow` and `enableWorkflowIfDisabled`: fetch the workflow, stop
   * when none was returned, enable it otherwise. A throwing fetch leaves the
   * method as `raised`, for the caller to catch. `CheckPair` is its specification.
   */
  method EnableWorkflowIfDisabled(repo: RepositoryConfig, workflow: WorkflowConfig, fetched: Fetched)
    returns (calls: seq<Call>, raised: bool)
    ensures calls == CheckPair(Pair(repo, workflow), fetched)
    ensures raised <==> fetched.FetchRaised?
  {
    calls := [GetWorkflowCall(repo.owner, repo.repo, workflow.name)];
    raised := false;
    match fetched
    case FetchRaised(_) =>
      raised := true;
    case NotFound =>
      return;
    case Found(_) =>
      calls := calls + [EnableWorkflowCall(repo.owner, repo.repo, workflow.name)];
  }

  /** The pairs of a concatenation are the concatenation of the pairs. */
  lemma {:induction false} PairsAppend(a: seq<RepositoryConfig>, b: seq<RepositoryConfig>)
    ensures Pairs(a + b) == Pairs(a) + Pairs(b)
    decreases |b|
  {
    if b == [] {
      assert a + b == a;
    } else {
      var n := |b| - 1;
      assert (a + b)[..|a + b| - 1] == a + b[..n];
      PairsAppend(a, b[..n]);
      assert b[..n] + [b[n]] == b;
      assert Pairs(b) == Pairs(b[..n]) + PairsOf(b[n]);
    }
  }

  /** One more repository adds its pairs after those of the repositories before it. */
  lemma PairsStep(repos: seq<RepositoryConfig>, i: nat)
    requires i < |repos|
    ensures Pairs(repos[..i + 1]) == Pairs(repos[..i]) + PairsOf(repos[i])
    ensures |Pairs(repos[..i + 1])| <= |Pairs(repos)|
  {
    PairsAppend(repos[..i + 1], repos[i + 1..]);
    assert repos[..i + 1] + repos[i + 1..] == repos;
    assert repos[..i + 1][..i] == repos[..i];
  }

  /** One more pair adds its calls after those of the pairs before it. */
  lemma TraceStep(ds: seq<Pair>, pair: Pair, replies: seq<Fetched>)
    requires |ds| < |replies|
    ensures CycleTrace(ds + [pair], replies) == CycleTrace(ds, replies) + CheckPair(pair, replies[|ds|])
  {
  }

  /**
   * `checkAllWorkflows`: nested loops over the repositories and their
   * workflows; a throw while checking one pair is caught and the loops go on.
   * It never throws to its caller.
   */
  method CheckAllWorkflows(config: MonitoringConfig, replies: seq<Fetched>) returns (trace: seq<Call>)
    requires |Pairs(config.repositories)| <= |replies|
    ensures trace == CycleTrace(Pairs(config.repositories), replies)
  {
    var repos := config.repositories;
    trace := [];
    var p := 0;
    for i := 0 to |repos|
      invariant p == |Pairs(repos[..i])| <= |replies|
      invariant trace == CycleTrace(Pairs(repos[..i]), replies)
    {
      var repo := repos[i];
      PairsStep(repos, i);
      ghost var done := Pairs(repos[..i]);
      assert done + PairsOf(repo)[..0] == done;
      for j := 0 to |repo.workflows|
        invariant p == |done| + j
        invariant trace == CycleTrace(done + PairsOf(repo)[..j], replies)
      {
        var calls, raised := EnableWorkflowIfDisabled(repo, repo.workflows[j], replies[p]);
        // A raised error is caught here and only logged.
        TraceStep(done + PairsOf(repo)[..j], Pair(repo, repo.workflows[j]), replies);
        assert done + PairsOf(repo)[..j + 1] == (done + PairsOf(repo)[..j]) + [Pair(repo, repo.workflows[j])];
        trace := trace + calls;
        p := p + 1;
      }
      assert PairsOf(repo)[..|repo.workflows|] == PairsOf(repo);
    }
    assert repos[..|repos|] == repos;
  }

  /** The trace of a prefix of the pairs is a prefix of the trace. */
  lemma {:induction false} TracePrefix(ps: seq<Pair>, replies: seq<Fetched>, m: nat)
    requires m <= |ps| <= |replies|
    ensures CycleTrace(ps[..m], replies) <= CycleTrace(ps, replies)
    decreases |ps| - m
  {
    if m < |ps| {
      var n := |ps| - 1;
      assert ps[..n][..m] == ps[..m];
      TracePrefix(ps[..n], replies, m);
    } else {
      assert ps[..m] == ps;
    }
  }

  /**
   * The calls of pair p sit together in the trace, after those of the pairs
   * before it: the fetch of that pair, then its enable exactly when the fetch
   * returned a workflow, with the configured workflow name.
   */
  lemma PairCalls(ps: seq<Pair>, replies: seq<Fetched>, p: nat)
    requires p < |ps| <= |replies|
    ensures Offset(ps, replies, p) < Offset(ps, replies, p + 1) <= |CycleTrace(ps, replies)|
    ensures CycleTrace(ps, replies)[Offset(ps, replies, p)] == FetchCall(ps[p])
    ensures replies[p].Found? ==>
      Offset(ps, replies, p + 1) == Offset(ps, replies, p) + 2 &&
      CycleTrace(ps, replies)[Offset(ps, replies, p) + 1] == EnableCall(ps[p])
    ensures !replies[p].Found? ==> Offset(ps, replies, p + 1) == Offset(ps, replies, p) + 1
  {
    TracePrefix(ps, replies, p + 1);
    assert ps[..p + 1][..p] == ps[..p];
  }

  /** The fetch calls of a concatenation are the concatenation of the fetch calls. */
  lemma {:induction false} FetchesAppend(a: seq<Call>, b: seq<Call>)
    ensures Fetches(a + b) == Fetches(a) + Fetches(b)
    decreases |b|
  {
    if b == [] {
      assert a + b == a;
    } else {
      var n := |b| - 1;
      assert (a + b)[..|a + b| - 1] == a + b[..n];
      FetchesAppend(a, b[..n]);
    }
  }

  /**
   * Failure isolation: whatever the client answers, a thrown error included,
   * every pair is fetched exactly once, in configuration order.
   */
  lemma {:induction false} EveryPairFetchedInOrder(ps: seq<Pair>, replies: seq<Fetched>)
    requires |ps| <= |replies|
    ensures Fetches(CycleTrace(ps, replies)) == seq(|ps|, i requires 0 <= i < |ps| => FetchCall(ps[i]))
    decreases |ps|
  {
    if ps != [] {
      var n := |ps| - 1;
      var c := CheckPair(ps[n], replies[n]);
      EveryPairFetchedInOrder(ps[..n], replies);
      FetchesAppend(CycleTrace(ps[..n], replies), c);
      FetchesAppend([c[0]], c[1..]);
      assert [c[0]] + c[1..] == c;
      assert Fetches([c[0]]) == [FetchCall(ps[n])] by {
        assert [c[0]][..0] == [];
      }
      if |c| == 2 {
        assert c[1..][..0] == [];
      }
    }
  }

  /** The decision ignores the `enableIfDeactivated` flag and the fetched `state`. */
  lemma DecisionIgnoresFlagAndState(repo: RepositoryConfig, name: string, w1: Workflow, w2: Workflow)
    ensures CheckPair(Pair(repo, WorkflowConfig(name, true)), Found(w1))
      == CheckPair(Pair(repo, WorkflowConfig(name, false)), Found(w2))
      == [GetWorkflowCall(repo.owner, repo.repo, name), EnableWorkflowCall(repo.owner, repo.repo, name)]
  {
  }

  /** A configuration with `acme/widget` and its workflow `ci.yml`. */
  function WidgetConfig(): MonitoringConfig {
    MonitoringConfig([RepositoryConfig("acme", "widget", [WorkflowConfig("ci.yml", true)])], 5)
  }

  /** Whatever workflow is found, it is enabled by its configured name `ci.yml`; a missing one is not enabled. */
  lemma WidgetScenarios(w: Workflow)
    ensures CycleTrace(Pairs(WidgetConfig().repositories), [Found(w)])
      == [GetWorkflowCall("acme", "widget", "ci.yml"), EnableWorkflowCall("acme", "widget", "ci.yml")]
    ensures CycleTrace(Pairs(WidgetConfig().repositories), [NotFound])
      == [GetWorkflowCall("acme", "widget", "ci.yml")]
  {
  }
}
