/** A committed Host-owned delivery whose report is still due, and what settles it. */
module PendingReport {
  import opened Prelude
  import opened KernelRows
  import opened Delivery
  import opened DeliveryRecovery

  // The journalled checkpoint of a guarded proof, made on the Run as it stands.
  predicate Journalled(rows: RunRows, r: string, id: string)
    requires id in rows.attempts
  {
    var a, run := rows.attempts[id], rows.run;
    a.checkpoint.Some? && a.reportKey.Some? && run.currentIdentity.Some?
    && a.checkpoint.value == Checkpoint(true, r, id, a.reportKey.value, a.stepId, run.planRevision, run.mutationRevision,
                                        run.currentIdentity.value, run.currentIdentity)
  }

  // The whole live receipt of a Host-owned worker, whose own report and the recorded mutation are both
  // rebuilt from it, one revision after its base; its step runs in an active Run, or its proof is journalled.
  predicate AwaitsReport(s: Store, r: string, id: string) {
    r in s.runs && id in s.runs[r].attempts && s.runs[r].attempts[id].stepId in s.runs[r].steps
    && (var rows := s.runs[r];
        var run, a := rows.run, rows.attempts[id];
        var step := rows.steps[a.stepId];
        && a.kind == HostOwned && (a.status == Started || a.status == Reported || a.status == Verifying)
        && Whole(a) && a.baseIdentity.Some? && a.resultIdentity == run.currentIdentity
        && a.planRevision == step.planRevision == run.planRevision && a.mutationRevision + 1 == run.mutationRevision
        && step.executionWorkspaceId == a.workspaceId
        && a.workerReport.value == WorkerReport(id, a.stepId, a.workspaceId.value, run.planRevision, run.contractRevision,
                                                a.changedPaths, a.workerReport.value.baseOwnerIndexDigest)
        && rows.provenance == Some(Provenance(run.projectId, run.workspaceId, run.sourceIdentity, run.mutationRevision,
                                              a.changedPaths, a.resultIdentity.value, a.patchDigest.value, None))
        && (match step.state
            case Running => run.status == Active
            case Reporting => run.status == Active && Journalled(rows, r, id)
            case Passed => run.status != Blocked && Journalled(rows, r, id)
            case _ => false))
  }

  lemma AwaitsReportIff(s: Store, r: string, id: string)
    ensures PendingHostWorkerDelivery(s, r, id) <==> AwaitsReport(s, r, id)
  {
  }

  // ---- What is rebuilt from the stored rows settles ----

  // The mutation handed out for settling a delivery whose report is due.
  function PendingDelivery(s: Store, r: string, id: string): DeliveryMutation
    requires AwaitsReport(s, r, id)
  {
    var run, a := s.runs[r].run, s.runs[r].attempts[id];
    DeliveryMutation(a.mutationRevision, a.baseIdentity.value, run.currentIdentity.value, run.currentIdentity.value,
                     run.mutationRevision, true, a.changedPaths, a.patchDigest.value)
  }

  function StoredPayload(s: Store, r: string, id: string): WorkerPayload
    requires AwaitsReport(s, r, id)
  {
    var a := s.runs[r].attempts[id];
    WorkerPayload(id, a.stepId, a.workspaceId.value, a.capsuleId, a.bindingId, a.changedPaths)
  }

  function StoredReceipt(s: Store, r: string, id: string): WorkerReceipt
    requires AwaitsReport(s, r, id)
  {
    var a := s.runs[r].attempts[id];
    WorkerReceipt(id, a.workspaceId.value, a.baseIdentity.value, a.resultIdentity.value, a.resultCommit.value,
                  a.patchDigest.value, a.changedPaths, a.workerReport.value)
  }

  predicate FencedBySession(s: Store, r: string, session: string)
    requires r in s.runs
  {
    match s.runs[r].run.workspaceId
    case None => false
    case Some(w) => w in s.locks && (s.locks[w].holderRunId, s.locks[w].sessionToken) == (r, session)
                    && s.clock < s.locks[w].expiresAt
  }

  // A delivery whose report is due settles from the stored rows alone, exactly under a guarded proof and the
  // session's own fence on the delivered tree, if its base was another tree and no part of it is blank.
  lemma PendingDeliverySettlesIff(s: Store, host: Host, r: string, id: string, guarded: bool)
    requires AwaitsReport(s, r, id)
    ensures (var rows := s.runs[r];
             var a := rows.attempts[id];
             SettlementDecision(s, host, r, StoredPayload(s, r, id), PendingDelivery(s, r, id), StoredReceipt(s, r, id), guarded).None?
             <==> rows.run.status == Active && rows.steps[a.stepId].state in {Running, Reporting}
                  && guarded && FencedBySession(s, r, host.sessionToken)
                  && Observe(s, host.workspaceId).identity == a.resultIdentity.value != a.baseIdentity.value
                  && "" !in {a.baseIdentity.value, a.resultIdentity.value, a.resultCommit.value, a.patchDigest.value})
  {
    SettlementIff(s, host, r, StoredPayload(s, r, id), PendingDelivery(s, r, id), StoredReceipt(s, r, id), guarded);
  }
}
