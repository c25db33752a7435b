/**
 * The part of an Argo CD Application that the commenter reads, as immutable values.
 * Operation phases and health status codes are Go string types, so they are kept
 * as strings here: a value outside the named constants is representable and is
 * what the "any other phase" branches of argocd-commenter act on.
 */
module ArgoCD {
  import opened Wrappers

  // Operation phases (gitops-engine sync/common).
  const OperationRunning: string := "Running"
  const OperationTerminating: string := "Terminating"
  const OperationFailed: string := "Failed"
  const OperationError: string := "Error"
  const OperationSucceeded: string := "Succeeded"

  // Health status codes (gitops-engine health).
  const HealthUnknown: string := "Unknown"
  const HealthProgressing: string := "Progressing"
  const HealthHealthy: string := "Healthy"
  const HealthSuspended: string := "Suspended"
  const HealthDegraded: string := "Degraded"
  const HealthMissing: string := "Missing"

  /** The phases that the commenter reports on: a running sync and its three results. */
  const ReportedPhases: set<string> :=
    {OperationRunning, OperationSucceeded, OperationFailed, OperationError}

  /** The health codes that produce a check-run update. */
  const ReportedHealth: set<string> := {HealthProgressing, HealthHealthy, HealthDegraded}

  datatype SyncOperation = SyncOperation(revision: string)

  /** `sync` is absent for operations other than a sync. */
  datatype Operation = Operation(sync: Option<SyncOperation>)

  datatype OperationState = OperationState(operation: Operation, phase: string, message: string)

  datatype HealthStatus = HealthStatus(status: string, message: string)

  datatype ApplicationSummary = ApplicationSummary(externalURLs: seq<string>)

  /** `operationState` is absent when no operation has been recorded yet. */
  datatype ApplicationStatus = ApplicationStatus(
    operationState: Option<OperationState>,
    health: HealthStatus,
    summary: ApplicationSummary)

  /**
   * `deletionTimestamp` counts time from Go's zero instant; absent or zero both
   * mean "not being deleted", as `metav1.Time.IsZero` does for a nil pointer and
   * for the zero time.
   */
  datatype Application = Application(
    name: string,
    namespace: string,
    annotations: map<string, string>,
    deletionTimestamp: Option<int>,
    status: ApplicationStatus)

  /** A deletion timestamp is set and is not the zero time. */
  predicate BeingDeleted(app: Application): (r: bool)
    ensures app.deletionTimestamp.None? ==> !r
    ensures app.deletionTimestamp == Some(0) ==> !r
    ensures app.deletionTimestamp.Some? && app.deletionTimestamp.value != 0 ==> r
  {
    app.deletionTimestamp.Some? && app.deletionTimestamp.value != 0
  }

  /** A Go map read: a missing key yields the empty string. */
  function Lookup(m: map<string, string>, key: string): (r: string)
    ensures key in m ==> r == m[key]
    ensures key !in m ==> r == ""
  {
    if key in m then m[key] else ""
  }
}
