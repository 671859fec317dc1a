/** When the owner's fence, its checks and its record succeed, said from the persisted rows and the workspace. */
module DeliveryConditions {
  import opened Prelude
  import opened KernelRows
  import opened WorktreeAuthority
  import opened Delivery
  import opened PendingReport
  import opened WorkspaceLock

  // The active Run of this very workspace, worktree and project, which holds the lease of the worktree.
  predicate RunsHere(s: Store, host: Host, r: string, snap: Snapshot) {
    && r in s.runs && r != "" && host.projectId != "" && host.worktreeId != ""
    && (host.projectId, host.worktreeId, host.workspaceId) == (snap.projectId, snap.worktreeId, snap.workspaceId)
    && (var run := s.runs[r].run;
        run.status == Active && run.projectId == host.projectId && run.worktreeId == Some(host.worktreeId)
        && run.workspaceId == Some(host.workspaceId))
    && host.worktreeId in s.leases && s.leases[host.worktreeId] == Lease(host.projectId, r)
  }

  // The unexpired lock row carries this owner's session and token.
  predicate OwnsLock(s: Store, workspaceId: string, r: string, session: string, token: nat) {
    workspaceId in s.locks
    && (var lock := s.locks[workspaceId];
        (lock.holderRunId, lock.sessionToken, lock.fencingToken) == (r, session, token) && s.clock < lock.expiresAt)
  }

  // The Run still stands where the snapshot was taken, and HEAD has not moved.
  predicate AtSnapshot(s: Store, r: string, snap: Snapshot)
    requires r in s.runs
  {
    s.runs[r].run.mutationRevision == snap.mutationRevision && s.runs[r].run.currentIdentity == Some(snap.identity)
    && Observe(s, snap.workspaceId).head == Some(snap.head)
  }

  // A started Host-owned attempt of the Run's plan and revision, based on the recorded tree and running in
  // its step's workspace, whose complete receipt names the index found.
  predicate AdmitsDirtyTree(rows: RunRows, attemptId: string, identity: string, indexDigest: string) {
    attemptId in rows.attempts && rows.attempts[attemptId].stepId in rows.steps && indexDigest != ""
    && (var a := rows.attempts[attemptId];
        var step, run := rows.steps[a.stepId], rows.run;
        a.kind == HostOwned && a.status == Started && step.state == Running
        && a.planRevision == step.planRevision == run.planRevision && a.mutationRevision == run.mutationRevision
        && a.workspaceId == step.executionWorkspaceId && a.baseIdentity == Some(identity)
        && a.resultCommit.Some? && a.patchDigest.Some? && a.workerReport.Some?
        && a.workerReport.value.planRevision == run.planRevision
        && a.workerReport.value.contractRevision == run.contractRevision
        && a.workerReport.value.baseOwnerIndexDigest == indexDigest)
  }

  // Before an apply the tree is the recorded one, and clean or an admitted baseline; after one only the
  // record asks, and the tree is what it is; after the record it is the recorded one again.
  predicate TreeFits(s: Store, r: string, snap: Snapshot, phase: Phase)
    requires r in s.runs
  {
    var live := Observe(s, snap.workspaceId);
    match phase
    case Post => true
    case PostCommit => live.identity == snap.identity
    case Pre =>
      live.identity == snap.identity
      && (live.dirty ==> snap.baselineAttemptId.Some?
                         && AdmitsDirtyTree(s.runs[r], snap.baselineAttemptId.value, snap.identity, live.indexDigest))
  }

  lemma CheckPassesIff(s: Store, host: Host, r: string, snap: Snapshot, session: string, token: nat, phase: Phase)
    ensures AssertCAS(s, host, r, snap, session, token, phase).None?
            <==> RunsHere(s, host, r, snap) && OwnsLock(s, snap.workspaceId, r, session, token)
                 && AtSnapshot(s, r, snap) && TreeFits(s, r, snap, phase)
  {
  }

  // Whatever reason a failed check gives is true of the rows and the workspace.
  lemma CheckReasonIsTrue(s: Store, host: Host, r: string, snap: Snapshot, session: string, token: nat, phase: Phase)
    requires AssertCAS(s, host, r, snap, session, token, phase).Some?
    ensures (var reason := AssertCAS(s, host, r, snap, session, token, phase).value;
             match reason
             case RunInactive => r !in s.runs || s.runs[r].run.status != Active
             case WorkspaceMismatch => snap.workspaceId != host.workspaceId
             case AuthorityLost => !RunsHere(s, host, r, snap)
             case FenceLost => !OwnsLock(s, snap.workspaceId, r, session, token)
             case RevisionStale => r in s.runs && s.runs[r].run.mutationRevision != snap.mutationRevision
             case HeadChanged => Observe(s, snap.workspaceId).head != Some(snap.head)
             case WorkspaceDrift =>
               r in s.runs && (s.runs[r].run.currentIdentity != Some(snap.identity) || !TreeFits(s, r, snap, phase))
             case _ => false)
  {
  }

  // ---- The record ----

  // An owner at its snapshot whose tree is, clean or dirty, the integrated one and another than before.
  predicate Recordable(s: Store, host: Host, r: string, snap: Snapshot, session: string, token: nat, patch: Patch) {
    RunsHere(s, host, r, snap) && OwnsLock(s, snap.workspaceId, r, session, token) && AtSnapshot(s, r, snap)
    && Observe(s, host.workspaceId).identity == patch.integrationIdentity
    && patch.integrationIdentity != "" && patch.integrationIdentity != snap.identity
    && patch.digest != "" && patch.changedPaths != {}
  }

  lemma RecordSucceedsIff(s: Store, host: Host, r: string, snap: Snapshot, session: string, token: nat, patch: Patch)
    ensures RecordOwnerMutation(s, host, r, snap, session, token, patch).1.Ok?
            <==> Recordable(s, host, r, snap, session, token, patch)
    ensures Recordable(s, host, r, snap, session, token, patch) ==>
              (var (s', result) := RecordOwnerMutation(s, host, r, snap, session, token, patch);
               var rows := s.runs[r];
               result == Ok(snap.mutationRevision + 1)
               && s' == s.(runs := s.runs[r := rows.(
                            run := rows.run.(mutationRevision := snap.mutationRevision + 1,
                                             currentIdentity := Some(patch.integrationIdentity)),
                            provenance := Some(Provenance(
                              snap.projectId, Some(snap.workspaceId), rows.run.sourceIdentity, snap.mutationRevision + 1,
                              patch.changedPaths, patch.integrationIdentity, patch.digest, None)))]))
  {
    CheckPassesIff(s, host, r, snap, session, token, Post);
  }

  // ---- Acquire, renew, ready ----

  predicate Complete(snap: Snapshot, session: string) {
    "" !in {snap.identity, snap.head, snap.projectId, snap.worktreeId, snap.workspaceId, session}
  }

  // The fence is taken exactly by the owner at its snapshot that the lock is free for.
  lemma FenceTakenIff(s: Store, host: Host, r: string, snap: Snapshot, recovery: Option<string>, session: string, ttl: nat)
    ensures AcquireOwnerFence(s, host, r, snap, recovery, session, ttl).1.Ok?
            <==> ttl > 0 && RunsHere(s, host, r, snap) && Complete(snap, session) && AtSnapshot(s, r, snap)
                 && TreeFits(s, r, snap, if recovery.Some? then PostCommit else Pre)
                 && (recovery.Some? ==> AwaitsReport(s, r, recovery.value))
                 && snap.workspaceId in s.workspaces && s.workspaces[snap.workspaceId].projectId == snap.projectId
                 && !HeldByOther(s, snap.workspaceId, r, session)
  {
    var phase := if recovery.Some? then PostCommit else Pre;
    if recovery.Some? { AwaitsReportIff(s, r, recovery.value); }
    LockGoesToOneHolder(s, snap.workspaceId, snap.projectId, r, session, ttl);
    var outcome := AcquireLock(s, snap.workspaceId, snap.projectId, r, session, ttl);
    if outcome.LockAcquired? {
      CheckPassesIff(outcome.store, host, r, snap, session, outcome.lock.fencingToken, phase);
      LockingKeepsChecks(s, outcome.store, host, r, snap, phase);
    }
  }

  lemma LockingKeepsChecks(s: Store, locked: Store, host: Host, r: string, snap: Snapshot, phase: Phase)
    requires locked == s.(workspaces := locked.workspaces, locks := locked.locks)
    ensures RunsHere(locked, host, r, snap) <==> RunsHere(s, host, r, snap)
    ensures r in s.runs ==> (AtSnapshot(locked, r, snap) <==> AtSnapshot(s, r, snap))
    ensures r in s.runs ==> (TreeFits(locked, r, snap, phase) <==> TreeFits(s, r, snap, phase))
  {
  }

  // Renewing asks the same of the owner, whose lock is still its own.
  lemma FenceRenewedIff(s: Store, host: Host, r: string, snap: Snapshot, session: string, token: nat, ttl: nat, phase: Phase)
    ensures RenewOwnerFence(s, host, r, snap, session, token, ttl, phase).1.Ok?
            <==> ttl > 0 && RunsHere(s, host, r, snap) && Complete(snap, session) && AtSnapshot(s, r, snap) && TreeFits(s, r, snap, phase)
                 && OwnsLock(s, snap.workspaceId, r, session, token)
                 && s.locks[snap.workspaceId].projectId == snap.projectId
  {
    if OwnsLock(s, snap.workspaceId, r, session, token) {
      var lock := s.locks[snap.workspaceId].(expiresAt := s.clock + ttl);
      var renewed := s.(locks := s.locks[snap.workspaceId := lock]);
      CheckPassesIff(renewed, host, r, snap, session, token, phase);
      LockingKeepsChecks(s, renewed, host, r, snap, phase);
    }
  }

  lemma ReadyIff(s: Store, host: Host, r: string, snap: Snapshot, session: string, token: nat, patch: Patch)
    ensures AssertReady(s, host, r, snap, session, token, patch).None?
            <==> RunsHere(s, host, r, snap) && OwnsLock(s, snap.workspaceId, r, session, token) && AtSnapshot(s, r, snap)
                 && TreeFits(s, r, snap, Pre)
                 && patch.integrationIdentity != "" && patch.digest != "" && patch.changedPaths != {}
  {
    CheckPassesIff(s, host, r, snap, session, token, Pre);
  }
}
