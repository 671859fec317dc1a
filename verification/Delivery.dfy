/**
 Owner Delivery: the fenced lock, the CAS checks around applying a patch, the
 durable owner mutation, restart recovery, and the admission of a worker's
 settlement. Each function is one control-plane call on the persisted rows.
 */
module Delivery {
  import opened Prelude
  import opened KernelRows
  import opened WorktreeAuthority

  datatype DeliveryError =
    | RunInactive
    | SnapshotMissing
    | WorkspaceMismatch
    | AuthorityLost
    | OwnerMutationStale
    | FenceLost
    | RevisionStale
    | WorkspaceDrift
    | HeadChanged
    | InputIncomplete
    | IdentityMismatch
    | MutationNotObserved
    | HandoffFailed

  // What the owner believes about the Run before it touches the workspace.
  datatype Snapshot = Snapshot(
    mutationRevision: nat,
    identity: string,
    head: string,
    projectId: string,
    worktreeId: string,
    workspaceId: string,
    baselineAttemptId: Option<string>)

  datatype Phase = Pre | Post | PostCommit

  // The prepared patch: the identity it must produce, its paths and its digest.
  datatype Patch = Patch(integrationIdentity: string, changedPaths: set<string>, digest: string)

  predicate CompleteSnapshot(snap: Snapshot, session: string) {
    snap.identity != "" && snap.head != "" && snap.projectId != "" && snap.worktreeId != ""
    && snap.workspaceId != "" && session != ""
  }

  predicate CompletePatch(patch: Patch) {
    patch.integrationIdentity != "" && patch.digest != "" && patch.changedPaths != {}
  }

  // ---- The workspace mutation lock ----

  datatype LockOutcome = LockRejected | LockHeld(holder: Lock) | LockAcquired(store: Store, lock: Lock)

  predicate Unexpired(s: Store, lock: Lock) {
    s.clock < lock.expiresAt
  }

  function Max(a: nat, b: nat): nat {
    if a < b then b else a
  }

  function AcquireLock(s: Store, workspaceId: string, projectId: string, runId: string, session: string, ttl: nat)
    : LockOutcome
  {
    if workspaceId !in s.workspaces || s.workspaces[workspaceId].projectId != projectId
       || runId !in s.runs || s.runs[runId].run.projectId != projectId then LockRejected
    else
      var rows := s.runs[runId];
      var boundWorker := rows.run.workspaceId != Some(workspaceId)
        && exists step <- rows.steps.Values :: step.executionWorkspaceId == Some(workspaceId);
      if rows.run.workspaceId.Some? && rows.run.workspaceId != Some(workspaceId) && !boundWorker then LockRejected
      else if workspaceId in s.locks && Unexpired(s, s.locks[workspaceId])
              && (s.locks[workspaceId].holderRunId != runId || s.locks[workspaceId].sessionToken != session) then
        LockHeld(s.locks[workspaceId])
      else
        var previous := if workspaceId in s.locks then s.locks[workspaceId].fencingToken else 0;
        var token := Max(s.workspaces[workspaceId].epoch, previous) + 1;
        var lock := Lock(projectId, runId, session, token, s.clock + ttl);
        LockAcquired(
          s.(workspaces := s.workspaces[workspaceId := s.workspaces[workspaceId].(epoch := token)],
             locks := s.locks[workspaceId := lock]),
          lock)
  }

  predicate HoldsLockRow(s: Store, workspaceId: string, runId: string, session: string, token: nat) {
    workspaceId in s.locks
    && s.locks[workspaceId].holderRunId == runId
    && s.locks[workspaceId].sessionToken == session
    && s.locks[workspaceId].fencingToken == token
  }

  // Releasing removes the row but never the epoch.
  function ReleaseLock(s: Store, workspaceId: string, runId: string, session: string, token: nat)
    : Result<Store, DeliveryError>
  {
    if HoldsLockRow(s, workspaceId, runId, session, token) then Ok(s.(locks := s.locks - {workspaceId}))
    else Err(HandoffFailed)
  }

  // A lock no owner can still use: expired, or not held by the active Run of its workspace.
  predicate StaleLock(s: Store, workspaceId: string, lock: Lock) {
    !Unexpired(s, lock) || lock.holderRunId !in s.runs
    || (var run := s.runs[lock.holderRunId].run;
        run.projectId != lock.projectId || run.workspaceId != Some(workspaceId) || run.status != Active)
  }

  // Reconciling the lifecycle drops the stale locks of a project; the epochs stay.
  function SweepLocks(s: Store, projectId: string): Store {
    s.(locks := map ws | ws in s.locks && !(s.locks[ws].projectId == projectId && StaleLock(s, ws, s.locks[ws])) :: s.locks[ws])
  }

  // ---- The CAS assertion ----

  // A dirty owner tree is admitted only as the baseline of a started
  // Host-owned attempt whose receipt names the same index.
  predicate BaselineAdmits(rows: RunRows, snap: Snapshot, indexDigest: string) {
    snap.baselineAttemptId.Some?
    && snap.baselineAttemptId.value in rows.attempts
    && (var a := rows.attempts[snap.baselineAttemptId.value];
        a.kind == HostOwned && a.status == Started
        && a.planRevision == rows.run.planRevision
        && a.mutationRevision == rows.run.mutationRevision
        && a.baseIdentity == Some(snap.identity)
        && a.stepId in rows.steps
        && rows.steps[a.stepId].state == Running
        && rows.steps[a.stepId].planRevision == rows.run.planRevision
        && rows.steps[a.stepId].executionWorkspaceId == a.workspaceId
        && a.resultCommit.Some? && a.patchDigest.Some? && a.workerReport.Some?
        && a.workerReport.value.planRevision == rows.run.planRevision
        && a.workerReport.value.contractRevision == rows.run.contractRevision
        && indexDigest != "" && a.workerReport.value.baseOwnerIndexDigest == indexDigest)
  }

  function AssertCAS(s: Store, host: Host, runId: string, snap: Snapshot, session: string, token: nat, phase: Phase)
    : Option<DeliveryError>
  {
    if runId !in s.runs || s.runs[runId].run.status != Active then Some(RunInactive)
    else if snap.workspaceId != host.workspaceId then Some(DeliveryError.WorkspaceMismatch)
    else if AssertRunWorktreeMutationAuthority(s, runId, host).Err? then Some(AuthorityLost)
    else if snap.workspaceId !in s.locks || !Unexpired(s, s.locks[snap.workspaceId])
            || !HoldsLockRow(s, snap.workspaceId, runId, session, token) then Some(FenceLost)
    else
      var rows := s.runs[runId];
      var live := Observe(s, host.workspaceId);
      if rows.run.workspaceId != Some(snap.workspaceId) || rows.run.projectId != snap.projectId
         || rows.run.worktreeId != Some(snap.worktreeId) then Some(AuthorityLost)
      else if rows.run.mutationRevision != snap.mutationRevision then Some(RevisionStale)
      else if rows.run.currentIdentity != Some(snap.identity) then Some(WorkspaceDrift)
      else if live.head != Some(snap.head) then Some(HeadChanged)
      else if phase != Post && live.identity != snap.identity then Some(WorkspaceDrift)
      else if phase == Pre && live.dirty && !BaselineAdmits(rows, snap, live.indexDigest) then Some(WorkspaceDrift)
      else None
  }

  // ---- A committed Host-owned delivery whose report is still pending ----

  predicate CheckpointPending(rows: RunRows, runId: string, attemptId: string) {
    attemptId in rows.attempts && rows.attempts[attemptId].checkpoint.Some?
    && (var a := rows.attempts[attemptId];
        var c := a.checkpoint.value;
        c.guarded && c.runId == runId && c.attemptId == attemptId && Some(c.reportKey) == a.reportKey
        && c.stepId == a.stepId
        && c.planRevision == rows.run.planRevision && c.mutationRevision == rows.run.mutationRevision
        && Some(c.identity) == rows.run.currentIdentity && c.deliveryIdentity == rows.run.currentIdentity)
  }

  predicate PendingHostWorkerDelivery(s: Store, runId: string, attemptId: string) {
    runId in s.runs && attemptId in s.runs[runId].attempts && s.runs[runId].provenance.Some?
    && (var rows := s.runs[runId];
        var run := rows.run;
        var a := rows.attempts[attemptId];
        var p := rows.provenance.value;
        run.currentIdentity.Some?
        && a.kind == HostOwned && LiveAttempt(a)
        && a.stepId in rows.steps
        && (var step := rows.steps[a.stepId];
            step.planRevision == run.planRevision && step.executionWorkspaceId == a.workspaceId
            && a.workspaceId.Some? && a.baseIdentity.Some? && a.resultIdentity.Some?
            && a.resultCommit.Some? && a.patchDigest.Some? && a.changedPaths != {}
            && a.planRevision == run.planRevision && a.mutationRevision + 1 == run.mutationRevision
            && a.workerReport.Some?
            && (var report := a.workerReport.value;
                report.attemptId == attemptId && report.stepId == a.stepId
                && Some(report.workspaceId) == a.workspaceId && report.planRevision == run.planRevision
                && report.contractRevision == run.contractRevision
                && report.changedPaths == a.changedPaths)
            && p.attemptId.None?
            && p.projectId == run.projectId && p.workspaceId == run.workspaceId
            && p.sourceIdentity == run.sourceIdentity
            && Some(p.workspaceIdentity) == run.currentIdentity
            && Some(p.workspaceIdentity) == a.resultIdentity
            && p.mutationRevision == run.mutationRevision
            && Some(p.mutationDigest) == a.patchDigest
            && p.changedPaths == a.changedPaths
            && ((run.status == Active && step.state == Running)
                || (CheckpointPending(rows, runId, attemptId)
                    && ((run.status == Active && step.state in {Reporting, Passed})
                        || (run.status == Completed && step.state == Passed))))))
  }

  // ---- Owner fence: acquire, renew, ready, record ----

  // The lock just taken is kept if the snapshot still holds; otherwise it is
  // handed back, and a failed acquire leaves only the epoch.
  function KeepOrHandBack(locked: Store, lock: Lock, host: Host, runId: string, snap: Snapshot, session: string,
                          phase: Phase)
    : (Store, Result<Lock, DeliveryError>)
  {
    match AssertCAS(locked, host, runId, snap, session, lock.fencingToken, phase)
    case None => (locked, Ok(lock))
    case Some(e) =>
      match ReleaseLock(locked, snap.workspaceId, runId, session, lock.fencingToken)
      case Ok(released) => (released, Err(e))
      case Err(_) => (locked, Err(e))
  }

  function AcquireOwnerFence(s: Store, host: Host, runId: string, snap: Snapshot, recoveryAttemptId: Option<string>,
                             session: string, ttl: nat)
    : (Store, Result<Lock, DeliveryError>)
  {
    if runId !in s.runs || s.runs[runId].run.status != Active then (s, Err(RunInactive))
    else if !CompleteSnapshot(snap, session) then (s, Err(SnapshotMissing))
    else if snap.projectId != host.projectId || snap.worktreeId != host.worktreeId
            || snap.workspaceId != host.workspaceId then (s, Err(AuthorityLost))
    else if recoveryAttemptId.Some? && !PendingHostWorkerDelivery(s, runId, recoveryAttemptId.value) then
      (s, Err(OwnerMutationStale))
    else match AcquireLock(s, snap.workspaceId, snap.projectId, runId, session, ttl)
      case LockRejected => (s, Err(AuthorityLost))
      case LockHeld(_) => (s, Err(FenceLost))
      case LockAcquired(locked, lock) =>
        KeepOrHandBack(locked, lock, host, runId, snap, session, if recoveryAttemptId.Some? then PostCommit else Pre)
  }

  function RenewOwnerFence(s: Store, host: Host, runId: string, snap: Snapshot, session: string, token: nat, ttl: nat,
                           phase: Phase)
    : (Store, Result<Lock, DeliveryError>)
  {
    if runId !in s.runs || s.runs[runId].run.status != Active then (s, Err(RunInactive))
    else if !CompleteSnapshot(snap, session) then (s, Err(SnapshotMissing))
    else if !HoldsLockRow(s, snap.workspaceId, runId, session, token)
            || s.locks[snap.workspaceId].projectId != snap.projectId
            || !Unexpired(s, s.locks[snap.workspaceId]) then (s, Err(FenceLost))
    else
      var lock := s.locks[snap.workspaceId].(expiresAt := s.clock + ttl);
      var renewed := s.(locks := s.locks[snap.workspaceId := lock]);
      match AssertCAS(renewed, host, runId, snap, session, token, phase)
      case None => (renewed, Ok(lock))
      case Some(e) => (renewed, Err(e))
  }

  // The last check before the patch is applied. Nothing is persisted by it.
  function AssertReady(s: Store, host: Host, runId: string, snap: Snapshot, session: string, token: nat, patch: Patch)
    : Option<DeliveryError>
  {
    if !CompletePatch(patch) then Some(InputIncomplete)
    else AssertCAS(s, host, runId, snap, session, token, Pre)
  }

  // Revision, identity and provenance move together.
  function RecordedRows(rows: RunRows, snap: Snapshot, patch: Patch, delivered: string): RunRows {
    var revision := rows.run.mutationRevision + 1;
    rows.(
      run := rows.run.(mutationRevision := revision, currentIdentity := Some(delivered)),
      provenance := Some(Provenance(
        snap.projectId, Some(snap.workspaceId), rows.run.sourceIdentity, revision,
        patch.changedPaths, delivered, patch.digest, None)))
  }

  function RecordOwnerMutation(s: Store, host: Host, runId: string, snap: Snapshot, session: string, token: nat,
                               patch: Patch)
    : (Store, Result<nat, DeliveryError>)
  {
    var delivered := Observe(s, host.workspaceId).identity;
    match AssertCAS(s, host, runId, snap, session, token, Post)
    case Some(e) => (s, Err(e))
    case None =>
      if patch.integrationIdentity == "" || delivered != patch.integrationIdentity then (s, Err(IdentityMismatch))
      else if patch.digest == "" || patch.changedPaths == {} then (s, Err(InputIncomplete))
      else
        var rows := s.runs[runId];
        if rows.run.currentIdentity == Some(delivered) then (s, Err(MutationNotObserved))
        else (WithRows(s, runId, RecordedRows(rows, snap, patch, delivered)), Ok(rows.run.mutationRevision + 1))
  }

  // ---- Plain observation ----

  // What a direct report claims about the mutation it observed.
  datatype Claim = Claim(workspaceId: Option<string>, changedPaths: set<string>, digest: Option<string>,
                         attemptId: Option<string>)

  function ClaimedProvenance(run: Run, identity: string, claim: Claim): Provenance {
    Provenance(
      run.projectId, if claim.workspaceId.Some? then claim.workspaceId else run.workspaceId, run.sourceIdentity,
      run.mutationRevision, claim.changedPaths, identity,
      if claim.digest.Some? then claim.digest.value else identity, claim.attemptId)
  }

  // The identity moves when it differs; the revision moves only from a known identity.
  function ObserveIdentity(rows: RunRows, identity: string, claim: Option<Claim>): RunRows {
    var run := rows.run;
    if run.currentIdentity == Some(identity) then
      rows.(provenance := if claim.Some? then Some(ClaimedProvenance(run, identity, claim.value)) else rows.provenance)
    else
      var initial := run.currentIdentity.None?;
      var observed := run.(currentIdentity := Some(identity),
                           mutationRevision := if initial then run.mutationRevision else run.mutationRevision + 1);
      rows.(run := observed,
            provenance := if !initial && claim.Some? then Some(ClaimedProvenance(observed, identity, claim.value))
                          else rows.provenance)
  }

  // ---- The step ledger outside a settlement ----

  // The step operations the control plane exposes by themselves; none looks at the state.
  datatype StepOperation = StartStep | CompleteStep | MarkFailed

  function OperatedRows(rows: RunRows, stepId: string, op: StepOperation): RunRows
    requires stepId in rows.steps
  {
    var state := match op case StartStep => Running case CompleteStep => Passed case MarkFailed => Failed;
    rows.(steps := rows.steps[stepId := rows.steps[stepId].(state := state)])
  }

  // A failed usage receipt or a refused admission marks the attempt it names, finished or not.
  function FailedTurnRows(rows: RunRows, attemptId: string): RunRows
    requires attemptId in rows.attempts
  {
    rows.(attempts := rows.attempts[attemptId := rows.attempts[attemptId].(status := Interrupted)])
  }

  // Only a live attempt is interrupted; its step keeps its state and workspace.
  function InterruptRows(rows: RunRows, attemptId: string): RunRows
    requires attemptId in rows.attempts
  {
    rows.(attempts := rows.attempts[attemptId := rows.attempts[attemptId].(status := Interrupted, finished := true)])
  }

  function FailedAttemptRow(a: Attempt): Attempt {
    a.(status := if a.status == Interrupted then Interrupted else FailedAttempt, finished := true)
  }

  // Failing a step asks nothing of its state, so it also takes back a passed one.
  function FailStepRows(rows: RunRows, stepId: string, attemptId: Option<string>): RunRows
    requires stepId in rows.steps && (attemptId.Some? ==> attemptId.value in rows.attempts)
  {
    rows.(
      attempts := if attemptId.None? then rows.attempts
                  else rows.attempts[attemptId.value := FailedAttemptRow(rows.attempts[attemptId.value])],
      steps := rows.steps[stepId := rows.steps[stepId].(state := Failed)])
  }

  // A replacement plan supersedes what is unsettled and adds its own steps.
  function Superseding(run: Run, step: Step): Step {
    if step.planRevision == run.planRevision && !SettledStep(step) then step.(state := Superseded) else step
  }

  function ReplanRows(rows: RunRows, replacement: map<string, Step>, resume: bool): RunRows {
    var run := rows.run;
    rows.(
      run := run.(planRevision := run.planRevision + 1,
                  status := if resume && run.status == Blocked then Active else run.status),
      steps := (map st | st in rows.steps :: Superseding(run, rows.steps[st])) + replacement)
  }

  predicate ReplacementPlan(rows: RunRows, replacement: map<string, Step>) {
    replacement.Keys !! rows.steps.Keys
    && forall st :: st in replacement ==>
         replacement[st].planRevision == rows.run.planRevision + 1
         && replacement[st].state in {Planned, Ready} && replacement[st].executionWorkspaceId.None?
  }

  // A candidate is rejected only by the holder of the owner fence, on an undisturbed tree.
  predicate CandidateRejectable(s: Store, host: Host, runId: string, attemptId: string, token: nat, candidate: string) {
    runId in s.runs && attemptId in s.runs[runId].attempts
    && (var rows := s.runs[runId];
        var run, a := rows.run, rows.attempts[attemptId];
        run.status == Active && run.currentIdentity.Some? && run.workspaceId.Some?
        && a.kind == HostOwned && a.status == Started
        && a.stepId in rows.steps && rows.steps[a.stepId].state == Running
        && rows.steps[a.stepId].planRevision == run.planRevision
        && a.planRevision == run.planRevision && a.mutationRevision == run.mutationRevision
        && a.workspaceId == rows.steps[a.stepId].executionWorkspaceId
        && a.baseIdentity == run.currentIdentity
        && a.resultCommit.Some? && a.patchDigest.Some? && a.workerReport.Some?
        && a.resultIdentity == Some(candidate)
        && HoldsLockRow(s, run.workspaceId.value, runId, host.sessionToken, token)
        && Unexpired(s, s.locks[run.workspaceId.value])
        && Some(Observe(s, host.workspaceId).identity) == run.currentIdentity)
  }

  // ---- Restart recovery ----

  datatype RecoverOutcome = NotFound | Nothing | InProgress | ReportPending | RecoveryBlocked(detail: BlockDetail)

  datatype BlockDetail =
    | Unobservable
    | ChangedBeforeProvenance
    | IdentityDiverged
    | ProvenanceMismatch
    | ReceiptsIncomplete
    | PathsDoNotReconstruct
    | StepsUnsettled

  // A settled direct report by the owner that produced exactly this mutation.
  predicate SettledOwnerReceipt(a: Attempt, runId: string, run: Run, p: Provenance) {
    a.kind == OwnerSession && a.status in {PassedAttempt, FailedAttempt}
    && a.reportKey.Some? && a.payloadDigest.Some? && a.finished
    && (if a.workspaceId.Some? then a.workspaceId else run.workspaceId) == p.workspaceId
    && a.mutationRevision == p.mutationRevision
    && a.endIdentity == Some(p.workspaceIdentity) && a.resultIdentity == Some(p.workspaceIdentity)
    && a.reportResult.Some?
    && a.reportResult.value.runId == runId && Some(a.reportResult.value.reportKey) == a.reportKey
    && a.changedPaths == p.changedPaths && a.reportResult.value.actualChangedPaths == p.changedPaths
  }

  function ReconcileCandidates(runId: string, rows: RunRows, p: Provenance): set<string> {
    set id | id in rows.attempts
             && SettledOwnerReceipt(rows.attempts[id], runId, rows.run, p)
             && (rows.run.ownerBindingId.None? || rows.attempts[id].bindingId == rows.run.ownerBindingId)
             && rows.attempts[id].planRevision == rows.run.planRevision
  }

  // Links a provenance row to the one settled owner report that explains it.
  ghost function Reconcile(runId: string, rows: RunRows): RunRows {
    match rows.provenance
    case None => rows
    case Some(p) =>
      if p.attemptId.Some? || p.projectId != rows.run.projectId || p.sourceIdentity != rows.run.sourceIdentity
         || p.mutationRevision != rows.run.mutationRevision || Some(p.workspaceIdentity) != rows.run.currentIdentity
         || p.workspaceId != rows.run.workspaceId || p.changedPaths == {} then rows
      else
        var candidates := ReconcileCandidates(runId, rows, p);
        if |candidates| != 1 then rows
        else
          var owner :| owner in candidates;
          rows.(provenance := Some(p.(attemptId := Some(owner))))
  }

  // A worker attempt recovery takes into account: its step still carries its workspace.
  predicate RecoveryAttempt(rows: RunRows, a: Attempt) {
    (a.kind == Routed || (a.kind == HostOwned && a.resultCommit.Some? && a.workerReport.Some?))
    && a.status != Interrupted
    && a.stepId in rows.steps
    && rows.steps[a.stepId].planRevision == rows.run.planRevision
    && rows.steps[a.stepId].executionWorkspaceId == a.workspaceId
  }

  function RecoveryAttemptsAt(rows: RunRows, revision: int): set<string> {
    set id | id in rows.attempts && RecoveryAttempt(rows, rows.attempts[id])
             && rows.attempts[id].mutationRevision == revision
  }

  predicate CompleteReceipt(a: Attempt) {
    a.workspaceId.Some? && a.resultIdentity.Some? && a.resultCommit.Some? && a.patchDigest.Some?
    && a.changedPaths != {} && a.workerReport.Some?
  }

  function ReceiptPaths(rows: RunRows, ids: set<string>): set<string>
    requires ids <= rows.attempts.Keys
  {
    set id, path | id in ids && path in rows.attempts[id].changedPaths :: path
  }

  predicate PreparedMarker(runId: string, rows: RunRows) {
    rows.provenance.Some? && rows.provenance.value.attemptId.None?
    && !(exists id :: id in rows.attempts
          && SettledOwnerReceipt(rows.attempts[id], runId, rows.run, rows.provenance.value)
          && rows.attempts[id].bindingId == rows.run.ownerBindingId
          && rows.provenance.value.projectId == rows.run.projectId
          && rows.provenance.value.sourceIdentity == rows.run.sourceIdentity)
  }

  // The owner fence is held, unexpired, by this very Run.
  predicate OwnerApplying(s: Store, runId: string)
    requires runId in s.runs
  {
    s.runs[runId].run.workspaceId.Some?
    && s.runs[runId].run.workspaceId.value in s.locks
    && s.locks[s.runs[runId].run.workspaceId.value].holderRunId == runId
    && Unexpired(s, s.locks[s.runs[runId].run.workspaceId.value])
  }

  // A recorded mutation against the receipts of the attempts it was built from.
  function ReceiptsDecision(s: Store, runId: string, relevant: set<string>): RecoverOutcome
    requires runId in s.runs && relevant <= s.runs[runId].attempts.Keys && s.runs[runId].provenance.Some?
    requires forall id :: id in relevant ==> s.runs[runId].attempts[id].stepId in s.runs[runId].steps
  {
    var rows := s.runs[runId];
    if exists id :: id in relevant && !CompleteReceipt(rows.attempts[id]) then RecoveryBlocked(ReceiptsIncomplete)
    else if ReceiptPaths(rows, relevant) != rows.provenance.value.changedPaths then RecoveryBlocked(PathsDoNotReconstruct)
    else if exists id :: id in relevant && !SettledStep(rows.steps[rows.attempts[id].stepId]) then
      if OwnerApplying(s, runId) then InProgress
      else if exists id :: id in relevant && relevant == {id} && PendingHostWorkerDelivery(s, runId, id) then ReportPending
      else RecoveryBlocked(StepsUnsettled)
    else Nothing
  }

  // Something of a delivery is persisted: the observed workspace decides, and then the receipts.
  function WorkspaceDecision(s: Store, runId: string, live: string, relevant: set<string>, pendingApply: bool): RecoverOutcome
    requires runId in s.runs && relevant <= s.runs[runId].attempts.Keys
    requires forall id :: id in relevant ==> s.runs[runId].attempts[id].stepId in s.runs[runId].steps
  {
    var rows := s.runs[runId];
    var run := rows.run;
    if pendingApply && Some(live) != run.currentIdentity then
      if OwnerApplying(s, runId) then InProgress else RecoveryBlocked(ChangedBeforeProvenance)
    else if rows.provenance.None? then
      if Some(live) == run.currentIdentity then Nothing else RecoveryBlocked(ChangedBeforeProvenance)
    else if run.currentIdentity != Some(live) then RecoveryBlocked(IdentityDiverged)
    else
      var p := rows.provenance.value;
      if p.workspaceIdentity != live || p.mutationRevision != run.mutationRevision then
        RecoveryBlocked(ProvenanceMismatch)
      else if run.mutationRevision == 0 || relevant == {} then Nothing
      else ReceiptsDecision(s, runId, relevant)
  }

  // Recovery after the provenance row was reconciled.
  function RecoveryDecision(s: Store, host: Host, runId: string, observable: bool): RecoverOutcome
    requires runId in s.runs
  {
    var rows := s.runs[runId];
    var run := rows.run;
    var expected := if rows.provenance.Some? then run.mutationRevision - 1 else run.mutationRevision;
    var relevant := RecoveryAttemptsAt(rows, expected);
    var pendingApply := RecoveryAttemptsAt(rows, run.mutationRevision) != {};
    if !pendingApply && relevant == {} && !PreparedMarker(runId, rows) then Nothing
    else if !observable then RecoveryBlocked(Unobservable)
    else WorkspaceDecision(s, runId, Observe(s, host.workspaceId).identity, relevant, pendingApply)
  }

  // A blocked Run keeps its lease and loses its locks.
  function BlockRun(s: Store, runId: string): Store {
    if runId in s.runs && s.runs[runId].run.status == Active then
      SweepLocks(WithRows(s, runId, s.runs[runId].(run := s.runs[runId].run.(status := Blocked))), s.runs[runId].run.projectId)
    else s
  }

  ghost function Recover(s: Store, host: Host, runId: string, observable: bool): (Store, RecoverOutcome) {
    if runId !in s.runs then (s, NotFound)
    else if s.runs[runId].run.status != Active then (s, Nothing)
    else
      var reconciled := WithRows(s, runId, Reconcile(runId, s.runs[runId]));
      var outcome := RecoveryDecision(reconciled, host, runId, observable);
      (if outcome.RecoveryBlocked? then BlockRun(reconciled, runId) else reconciled, outcome)
  }

  // ---- Settlement of a worker's result after the owner mutation ----

  datatype DeliveryMutation = DeliveryMutation(
    expectedRevision: nat,
    expectedIdentity: string,
    deliveryIdentity: string,
    integrationIdentity: string,
    mutationRevision: nat,
    changed: bool,
    changedPaths: set<string>,
    patchDigest: string)

  datatype WorkerPayload = WorkerPayload(
    attemptId: string,
    stepId: string,
    workspaceId: string,
    capsuleId: Option<string>,
    bindingId: Option<string>,
    changedPaths: set<string>)

  // The execution receipt the dispatcher holds; the store has its own copy.
  datatype WorkerReceipt = WorkerReceipt(
    attemptId: string,
    workspaceId: string,
    baseIdentity: string,
    resultIdentity: string,
    resultCommit: string,
    patchDigest: string,
    changedPaths: set<string>,
    workerReport: WorkerReport)

  datatype SettlementRejection =
    | NoCommittedMutation
    | DeliveryIdentityStale
    | DeliveryMutationStale
    | WorkerPathsMismatch
    | WorkerPathsOmitted
    | RunNotActive
    | StepNotLive
    | StepAlreadySettled
    | SettlementRevisionStale
    | WorkspaceMismatched
    | AttemptNotActive
    | AttemptLineage
    | CapsuleMismatch
    | BindingMismatch
    | GuardRequired
    | ReceiptIncomplete
    | ReceiptMismatch

  function ResolveParallelSettlementStep(rows: RunRows, payload: WorkerPayload, mutation: DeliveryMutation,
                                         workerWorkspaceId: string, workerIdentity: string)
    : Option<SettlementRejection>
  {
    var run := rows.run;
    if run.status != Active then Some(RunNotActive)
    else if payload.stepId !in rows.steps || rows.steps[payload.stepId].planRevision != run.planRevision then
      Some(StepNotLive)
    else
      var step := rows.steps[payload.stepId];
      if SettledStep(step) then Some(StepAlreadySettled)
      else if run.mutationRevision != mutation.expectedRevision + 1
              || run.currentIdentity == Some(mutation.expectedIdentity) then Some(SettlementRevisionStale)
      else if step.executionWorkspaceId != Some(workerWorkspaceId) || payload.workspaceId != workerWorkspaceId then
        Some(WorkspaceMismatched)
      else if payload.attemptId !in rows.attempts || !LiveAttempt(rows.attempts[payload.attemptId]) then
        Some(AttemptNotActive)
      else
        var a := rows.attempts[payload.attemptId];
        if a.mutationRevision != mutation.expectedRevision then Some(AttemptLineage)
        else if a.workspaceId != Some(workerWorkspaceId)
                || (workerIdentity != "" && a.baseIdentity != Some(workerIdentity)) then Some(AttemptLineage)
        else if a.capsuleId.Some? && a.capsuleId != payload.capsuleId then Some(CapsuleMismatch)
        else if a.bindingId.Some? && a.bindingId != payload.bindingId then Some(BindingMismatch)
        else None
  }

  predicate CommittedMutationMatches(rows: RunRows, mutation: DeliveryMutation) {
    mutation.changed && mutation.changedPaths != {} && mutation.patchDigest != ""
    && mutation.integrationIdentity == mutation.deliveryIdentity
    && mutation.mutationRevision == mutation.expectedRevision + 1
    && rows.run.status == Active
    && rows.run.mutationRevision == mutation.expectedRevision + 1
    && rows.run.currentIdentity == Some(mutation.deliveryIdentity)
    && rows.provenance.Some?
    && (var p := rows.provenance.value;
        p.mutationRevision == mutation.expectedRevision + 1
        && p.projectId == rows.run.projectId && p.workspaceId == rows.run.workspaceId
        && p.workspaceIdentity == mutation.deliveryIdentity
        && p.changedPaths == mutation.changedPaths
        && p.mutationDigest == mutation.patchDigest)
  }

  predicate SameReceipt(a: Attempt, attemptId: string, receipt: WorkerReceipt) {
    receipt.attemptId == attemptId
    && Some(receipt.workspaceId) == a.workspaceId
    && Some(receipt.baseIdentity) == a.baseIdentity
    && Some(receipt.resultIdentity) == a.resultIdentity
    && Some(receipt.resultCommit) == a.resultCommit
    && Some(receipt.patchDigest) == a.patchDigest
    && receipt.changedPaths == a.changedPaths
    && Some(receipt.workerReport) == a.workerReport
  }

  function SettlementDecision(s: Store, host: Host, runId: string, payload: WorkerPayload, mutation: DeliveryMutation,
                              receipt: WorkerReceipt, guarded: bool)
    : Option<SettlementRejection>
  {
    if runId !in s.runs || mutation.expectedIdentity == "" || mutation.deliveryIdentity == "" then
      Some(NoCommittedMutation)
    else
      var rows := s.runs[runId];
      if Observe(s, host.workspaceId).identity != mutation.deliveryIdentity then Some(DeliveryIdentityStale)
      else if !CommittedMutationMatches(rows, mutation) then Some(DeliveryMutationStale)
      else if payload.changedPaths != receipt.changedPaths then Some(WorkerPathsMismatch)
      else if !(payload.changedPaths <= mutation.changedPaths) then Some(WorkerPathsOmitted)
      else match ResolveParallelSettlementStep(rows, payload, mutation, receipt.workspaceId, receipt.baseIdentity)
        case Some(rejection) => Some(rejection)
        case None =>
          var a := rows.attempts[payload.attemptId];
          if a.kind == HostOwned
             && !(guarded && OwnerApplying(s, runId)
                  && s.locks[rows.run.workspaceId.value].sessionToken == host.sessionToken) then Some(GuardRequired)
          else if receipt.baseIdentity == "" || receipt.resultIdentity == "" || receipt.resultCommit == ""
                  || receipt.patchDigest == "" || receipt.changedPaths == {} then Some(ReceiptIncomplete)
          else if !SameReceipt(a, payload.attemptId, receipt) then Some(ReceiptMismatch)
          else None
  }

  // What admits a settlement, whatever the order of the checks: the Run stands one
  // revision after the attempt on the delivered tree, the recorded mutation is the
  // one named, the step is open in the worker's workspace, and the receipt is the
  // attempt's own.
  predicate SettlementAdmissible(s: Store, host: Host, runId: string, payload: WorkerPayload, mutation: DeliveryMutation,
                                 receipt: WorkerReceipt, guarded: bool)
  {
    runId in s.runs && payload.stepId in s.runs[runId].steps && payload.attemptId in s.runs[runId].attempts
    && s.runs[runId].provenance.Some?
    && (var rows := s.runs[runId];
        var run, step, a, p := rows.run, rows.steps[payload.stepId], rows.attempts[payload.attemptId], rows.provenance.value;
        && run.status == Active && run.currentIdentity == Some(mutation.deliveryIdentity)
        && run.mutationRevision == mutation.mutationRevision == mutation.expectedRevision + 1 == a.mutationRevision + 1
        && mutation.deliveryIdentity == mutation.integrationIdentity == Observe(s, host.workspaceId).identity
        && mutation.expectedIdentity != mutation.deliveryIdentity
        && mutation.expectedIdentity != "" && mutation.deliveryIdentity != ""
        && mutation.changed && mutation.changedPaths != {} && mutation.patchDigest != ""
        && p == Provenance(run.projectId, run.workspaceId, p.sourceIdentity, run.mutationRevision,
                           mutation.changedPaths, mutation.deliveryIdentity, mutation.patchDigest, p.attemptId)
        && step.planRevision == run.planRevision
        && step.state != Passed && step.state != Superseded && step.state != Cancelled
        && step.executionWorkspaceId == Some(receipt.workspaceId) == Some(payload.workspaceId)
        && (a.status == Started || a.status == Reported || a.status == Verifying)
        && a.workspaceId == Some(receipt.workspaceId) && a.baseIdentity == Some(receipt.baseIdentity)
        && a.resultIdentity == Some(receipt.resultIdentity) && a.resultCommit == Some(receipt.resultCommit)
        && a.patchDigest == Some(receipt.patchDigest) && a.changedPaths == receipt.changedPaths
        && a.workerReport == Some(receipt.workerReport) && receipt.attemptId == payload.attemptId
        && receipt.baseIdentity != "" && receipt.resultIdentity != "" && receipt.resultCommit != "" && receipt.patchDigest != ""
        && {} != receipt.changedPaths == payload.changedPaths && receipt.changedPaths <= mutation.changedPaths
        && (a.capsuleId.Some? ==> a.capsuleId == payload.capsuleId)
        && (a.bindingId.Some? ==> a.bindingId == payload.bindingId)
        && (a.kind == HostOwned ==>
              guarded && run.workspaceId.Some? && run.workspaceId.value in s.locks
              && (var lock := s.locks[run.workspaceId.value];
                  lock.holderRunId == runId && lock.sessionToken == host.sessionToken && s.clock < lock.expiresAt)))
  }

  lemma SettlementIff(s: Store, host: Host, runId: string, payload: WorkerPayload, mutation: DeliveryMutation,
                      receipt: WorkerReceipt, guarded: bool)
    ensures SettlementDecision(s, host, runId, payload, mutation, receipt, guarded).None?
            <==> SettlementAdmissible(s, host, runId, payload, mutation, receipt, guarded)
  {
  }

  // The mutation on record is the one named, on the Run as it stands.
  predicate NamesTheMutation(rows: RunRows, mutation: DeliveryMutation) {
    var run := rows.run;
    mutation.changed && mutation.patchDigest != "" && |mutation.changedPaths| > 0
    && mutation.integrationIdentity == mutation.deliveryIdentity
    && run.status == Active && run.currentIdentity == Some(mutation.deliveryIdentity)
    && run.mutationRevision == mutation.mutationRevision == mutation.expectedRevision + 1
    && match rows.provenance
       case None => false
       case Some(p) => p == Provenance(run.projectId, run.workspaceId, p.sourceIdentity, run.mutationRevision,
                                       mutation.changedPaths, mutation.deliveryIdentity, mutation.patchDigest, p.attemptId)
  }

  // The reason of a rejection is true of the rows, the workspace and what was handed in.
  lemma RejectionIsTrue(s: Store, host: Host, runId: string, payload: WorkerPayload, mutation: DeliveryMutation,
                        receipt: WorkerReceipt, guarded: bool)
    requires SettlementDecision(s, host, runId, payload, mutation, receipt, guarded).Some?
    ensures (var reason := SettlementDecision(s, host, runId, payload, mutation, receipt, guarded).value;
             if reason == NoCommittedMutation then
               runId !in s.runs || mutation.expectedIdentity == "" || mutation.deliveryIdentity == ""
             else runId in s.runs && RejectedFor(s, host, s.runs[runId], payload, mutation, receipt, guarded, reason))
  {
  }

  predicate RejectedFor(s: Store, host: Host, rows: RunRows, payload: WorkerPayload, mutation: DeliveryMutation,
                        receipt: WorkerReceipt, guarded: bool, reason: SettlementRejection)
  {
    match reason
    case NoCommittedMutation => false
    case DeliveryIdentityStale => Observe(s, host.workspaceId).identity != mutation.deliveryIdentity
    case DeliveryMutationStale => !NamesTheMutation(rows, mutation)
    case WorkerPathsMismatch => payload.changedPaths != receipt.changedPaths
    case WorkerPathsOmitted => exists path :: path in payload.changedPaths && path !in mutation.changedPaths
    case RunNotActive => rows.run.status != Active
    case StepNotLive => payload.stepId in rows.steps ==> rows.steps[payload.stepId].planRevision != rows.run.planRevision
    case StepAlreadySettled => payload.stepId in rows.steps && rows.steps[payload.stepId].state in {Passed, Superseded, Cancelled}
    case SettlementRevisionStale =>
      rows.run.mutationRevision != mutation.expectedRevision + 1 || rows.run.currentIdentity == Some(mutation.expectedIdentity)
    case WorkspaceMismatched =>
      payload.workspaceId != receipt.workspaceId
      || (payload.stepId in rows.steps && rows.steps[payload.stepId].executionWorkspaceId != Some(receipt.workspaceId))
    case AttemptNotActive =>
      payload.attemptId in rows.attempts ==> rows.attempts[payload.attemptId].status !in {Started, Reported, Verifying}
    case _ =>
      payload.attemptId in rows.attempts
      && RejectedReceipt(rows.attempts[payload.attemptId], payload, mutation, receipt, reason)
  }

  predicate RejectedReceipt(a: Attempt, payload: WorkerPayload, mutation: DeliveryMutation, receipt: WorkerReceipt,
                            reason: SettlementRejection)
  {
    match reason
    case AttemptLineage =>
      a.mutationRevision != mutation.expectedRevision || a.workspaceId != Some(receipt.workspaceId)
      || a.baseIdentity != Some(receipt.baseIdentity)
    case CapsuleMismatch => a.capsuleId !in {None, payload.capsuleId}
    case BindingMismatch => a.bindingId !in {None, payload.bindingId}
    case GuardRequired => a.kind == HostOwned
    case ReceiptIncomplete =>
      |receipt.changedPaths| == 0
      || "" in {receipt.baseIdentity, receipt.resultIdentity, receipt.resultCommit, receipt.patchDigest}
    case ReceiptMismatch =>
      (receipt.attemptId, Some(receipt.workspaceId), Some(receipt.baseIdentity), Some(receipt.resultIdentity),
       Some(receipt.resultCommit), Some(receipt.patchDigest), receipt.changedPaths, Some(receipt.workerReport))
      != (payload.attemptId, a.workspaceId, a.baseIdentity, a.resultIdentity,
          a.resultCommit, a.patchDigest, a.changedPaths, a.workerReport)
    case _ => false
  }

  // The step and its attempt settle together with the journalled report; a report
  // that is cut off before its verdict leaves the step reporting.
  function SettleRows(rows: RunRows, attemptId: string, stepId: string, verdict: Option<bool>): RunRows
    requires attemptId in rows.attempts && stepId in rows.steps
  {
    match verdict
    case None => rows.(steps := rows.steps[stepId := rows.steps[stepId].(state := Reporting)])
    case Some(passed) =>
      rows.(
        attempts := rows.attempts[attemptId := rows.attempts[attemptId].(
          status := if passed then PassedAttempt else FailedAttempt, finished := true)],
        steps := rows.steps[stepId := rows.steps[stepId].(state := if passed then Passed else Failed)])
  }
}
