/**
 * The records of the workflow enabler: what the configuration lists and what
 * the GitHub API reports about a workflow.
 */
module Types {

  /** The four values the `state` of a fetched workflow may take. */
  datatype WorkflowState = Queued | InProgress | Completed | DisabledInactivity

  /** A workflow as reported by `GET /repos/{owner}/{repo}/actions/workflows/{id}`. */
  datatype Workflow = Workflow(id: int, name: string, path: string, state: WorkflowState)

  /** One configured workflow: its file name (or id) and whether it should be re-enabled. */
  datatype WorkflowConfig = WorkflowConfig(name: string, enableIfDeactivated: bool)

  /** One configured repository and the workflows to watch in it. */
  datatype RepositoryConfig = RepositoryConfig(owner: string, repo: string, workflows: seq<WorkflowConfig>)

  /** The whole configuration: the repositories to watch and the schedule interval. */
  datatype MonitoringConfig = MonitoringConfig(repositories: seq<RepositoryConfig>, scheduleMinutes: int)
}
