/**
 The rows the control plane persists, and the owner workspaces on disk.

 A changed-path list is kept as a set: every comparison in the program is made
 between lists that were normalised, de-duplicated and sorted first, so two
 canonical lists are equal exactly when their sets are.
 */
module KernelRows {
  import opened Prelude

  // Completed stands for the two terminal states, completed and abandoned.
  datatype RunStatus = Active | Blocked | Completed

  datatype Run = Run(
    status: RunStatus,
    projectId: string,
    worktreeId: Option<string>,
    workspaceId: Option<string>,
    sourceIdentity: string,
    ownerBindingId: Option<string>,
    planRevision: nat,
    contractRevision: nat,
    mutationRevision: nat,
    currentIdentity: Option<string>)

  datatype StepState = Planned | Ready | Running | Reporting | Passed | Failed | Superseded | Cancelled

  datatype Step = Step(
    planRevision: nat,
    state: StepState,
    executionWorkspaceId: Option<string>)

  datatype AttemptKind = OwnerSession | Routed | HostOwned

  datatype AttemptStatus = Started | Reported | Verifying | PassedAttempt | FailedAttempt | Interrupted

  datatype WorkerReport = WorkerReport(
    attemptId: string,
    stepId: string,
    workspaceId: string,
    planRevision: nat,
    contractRevision: nat,
    changedPaths: set<string>,
    baseOwnerIndexDigest: string)

  // The journal written before a report is settled.
  datatype Checkpoint = Checkpoint(
    guarded: bool,
    runId: string,
    attemptId: string,
    reportKey: string,
    stepId: string,
    planRevision: nat,
    mutationRevision: nat,
    identity: string,
    deliveryIdentity: Option<string>)

  datatype ReportReceipt = ReportReceipt(runId: string, reportKey: string, actualChangedPaths: set<string>)

  datatype Attempt = Attempt(
    stepId: string,
    kind: AttemptKind,
    status: AttemptStatus,
    planRevision: nat,
    mutationRevision: nat,
    capsuleId: Option<string>,
    bindingId: Option<string>,
    workspaceId: Option<string>,
    baseIdentity: Option<string>,
    resultIdentity: Option<string>,
    resultCommit: Option<string>,
    patchDigest: Option<string>,
    changedPaths: set<string>,
    workerReport: Option<WorkerReport>,
    endIdentity: Option<string>,
    finished: bool,
    reportKey: Option<string>,
    payloadDigest: Option<string>,
    checkpoint: Option<Checkpoint>,
    reportResult: Option<ReportReceipt>)

  // The owner mutation of a Run: one row, overwritten by the next mutation.
  datatype Provenance = Provenance(
    projectId: string,
    workspaceId: Option<string>,
    sourceIdentity: string,
    mutationRevision: nat,
    changedPaths: set<string>,
    workspaceIdentity: string,
    mutationDigest: string,
    attemptId: Option<string>)

  // Attempts are keyed by attempt id and steps by step id; both are unique.
  datatype RunRows = RunRows(
    run: Run,
    provenance: Option<Provenance>,
    attempts: map<string, Attempt>,
    steps: map<string, Step>)

  datatype Lock = Lock(projectId: string, holderRunId: string, sessionToken: string, fencingToken: nat, expiresAt: nat)

  datatype Lease = Lease(projectId: string, holderRunId: string)

  // A registered workspace keeps its fencing epoch even while no lock exists.
  datatype Workspace = Workspace(projectId: string, worktreeId: string, epoch: nat)

  // What the Host observes in a workspace directory.
  datatype Live = Live(identity: string, head: Option<string>, dirty: bool, indexDigest: string)

  datatype Store = Store(
    runs: map<string, RunRows>,
    workspaces: map<string, Workspace>,
    leases: map<string, Lease>,   // by worktree id
    locks: map<string, Lock>,     // by workspace id: one lock row per workspace
    live: map<string, Live>,      // by workspace id
    clock: nat)

  // The control plane instance a call goes through.
  datatype Host = Host(projectId: string, worktreeId: string, workspaceId: string, sessionToken: string)

  predicate LiveAttempt(a: Attempt) {
    a.status in {Started, Reported, Verifying}
  }

  predicate SettledStep(step: Step) {
    step.state in {Passed, Superseded, Cancelled}
  }

  // A workspace with no directory observes as an empty one without a HEAD.
  function Observe(s: Store, workspaceId: string): Live {
    if workspaceId in s.live then s.live[workspaceId] else Live("", None, false, "")
  }

  function WithRows(s: Store, runId: string, rows: RunRows): Store {
    s.(runs := s.runs[runId := rows])
  }
}
