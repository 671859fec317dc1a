/**
 The state store and the control-plane calls that update it in place. Each call
 is proved to make exactly the transition the protocol model gives it, so the
 guarantees over whole runs hold of these methods.
 */
module KernelStore {
  import opened Prelude
  import opened KernelRows
  import opened WorktreeAuthority
  import opened Delivery
  import opened DeliveryRecovery
  import opened RunLifecycle
  import opened StoreConditions
  import opened WorkspaceLock
  import opened PendingReport
  import opened DeliveryConditions
  import opened DeliveryAnswers

  class KernelStateStore {
    var runs: map<string, RunRows>
    var workspaces: map<string, Workspace>
    var leases: map<string, Lease>
    var locks: map<string, Lock>
    var live: map<string, Live>
    var clock: nat

    function View(): Store
      reads this
    {
      Store(runs, workspaces, leases, locks, live, clock)
    }

    // ---- State store transactions ----

    // A registered caller gets the live row of another holder or session back and nothing
    // changes; otherwise the lock is its own.
    method AcquireWorkspaceMutationLock(workspaceId: string, projectId: string, runId: string, session: string, ttl: nat)
      returns (outcome: LockOutcome)
      modifies this`workspaces, this`locks
      ensures outcome.LockRejected? <==> !Registered(old(View()), workspaceId, projectId, runId)
      ensures outcome.LockHeld? <==> Registered(old(View()), workspaceId, projectId, runId)
                                     && HeldByOther(old(View()), workspaceId, runId, session)
      ensures outcome.LockHeld? ==> outcome.holder == old(locks)[workspaceId]
      ensures !outcome.LockAcquired? ==> workspaces == old(workspaces) && locks == old(locks)
      ensures outcome.LockAcquired? ==>
                Granted(old(View()), workspaceId, projectId, runId, session, ttl, View(), outcome.lock)
      ensures outcome == AcquireLock(old(View()), workspaceId, projectId, runId, session, ttl)
      ensures View() == if outcome.LockAcquired? then outcome.store else old(View())
    {
      LockGoesToOneHolder(View(), workspaceId, projectId, runId, session, ttl);
      if workspaceId !in workspaces || workspaces[workspaceId].projectId != projectId
         || runId !in runs || runs[runId].run.projectId != projectId {
        return LockRejected;
      }
      var rows := runs[runId];
      var boundWorker := rows.run.workspaceId != Some(workspaceId)
        && exists step <- rows.steps.Values :: step.executionWorkspaceId == Some(workspaceId);
      if rows.run.workspaceId.Some? && rows.run.workspaceId != Some(workspaceId) && !boundWorker {
        return LockRejected;
      }
      var previous := 0;
      if workspaceId in locks {
        var current := locks[workspaceId];
        if clock < current.expiresAt && (current.holderRunId != runId || current.sessionToken != session) {
          return LockHeld(current);
        }
        previous := current.fencingToken;
      }
      // The counter lives with the workspace, so releasing a lock cannot reset it.
      var token := Max(workspaces[workspaceId].epoch, previous) + 1;
      workspaces := workspaces[workspaceId := workspaces[workspaceId].(epoch := token)];
      var lock := Lock(projectId, runId, session, token, clock + ttl);
      locks := locks[workspaceId := lock];
      outcome := LockAcquired(View(), lock);
    }

    method ReleaseWorkspaceMutationLock(workspaceId: string, runId: string, session: string, token: nat)
      returns (released: bool)
      modifies this`locks
      ensures released <==> workspaceId in old(locks) && old(locks)[workspaceId].holderRunId == runId
                            && old(locks)[workspaceId].sessionToken == session
                            && old(locks)[workspaceId].fencingToken == token
      ensures locks == if released then old(locks) - {workspaceId} else old(locks)
      ensures released <==> ReleaseLock(old(View()), workspaceId, runId, session, token).Ok?
      ensures View() == if released then ReleaseLock(old(View()), workspaceId, runId, session, token).value else old(View())
    {
      released := HoldsLockRow(View(), workspaceId, runId, session, token);
      if released {
        locks := locks - {workspaceId};
      }
    }

    // The revision and the identity are compared and set in one transaction.
    method ObserveWorkspaceIdentityCAS(runId: string, expectedRevision: nat, expectedIdentity: string, identity: string,
                                       provenance: Provenance)
      returns (error: Option<DeliveryError>)
      modifies this`runs
      ensures error.None? <==> (runId in old(runs) && old(runs)[runId].run.status == Active
                                && old(runs)[runId].run.mutationRevision == expectedRevision
                                && old(runs)[runId].run.currentIdentity == Some(expectedIdentity)
                                && expectedIdentity != identity)
      ensures error.Some? ==> View() == old(View())
      ensures error == Some(MutationNotObserved) <==>
              (runId in old(runs) && old(runs)[runId].run.status == Active
               && old(runs)[runId].run.mutationRevision == expectedRevision
               && old(runs)[runId].run.currentIdentity == Some(expectedIdentity) && expectedIdentity == identity)
      ensures error.None? ==> (
                var rows := old(runs)[runId];
                View() == WithRows(old(View()), runId, rows.(
                  run := rows.run.(mutationRevision := expectedRevision + 1, currentIdentity := Some(identity)),
                  provenance := Some(provenance))))
    {
      if runId !in runs || runs[runId].run.status != Active { return Some(RunInactive); }
      var run := runs[runId].run;
      if run.mutationRevision != expectedRevision { return Some(RevisionStale); }
      if run.currentIdentity != Some(expectedIdentity) { return Some(WorkspaceDrift); }
      if run.currentIdentity == Some(identity) { return Some(MutationNotObserved); }
      run := run.(mutationRevision := run.mutationRevision + 1, currentIdentity := Some(identity));
      runs := runs[runId := runs[runId].(run := run)];
      runs := runs[runId := runs[runId].(provenance := Some(provenance))];
      error := None;
    }

    // ---- Leases and the life of Runs ----

    // A lease passes to another Run only from a holder that is gone or terminal.
    method ClaimWorktreeLease(worktreeId: string, projectId: string, runId: string) returns (acquired: bool)
      modifies this`leases
      ensures acquired <==> Takable(old(View()), worktreeId, projectId, runId)
      ensures leases == if acquired then old(leases)[worktreeId := Lease(projectId, runId)] else old(leases)
    {
      if worktreeId in leases {
        var current := leases[worktreeId];
        if current.holderRunId == runId && current.projectId == projectId {
          assert leases == leases[worktreeId := Lease(projectId, runId)];
          return true;
        }
        if current.holderRunId in runs && runs[current.holderRunId].run.status != Completed { return false; }
        leases := leases - {worktreeId};
      }
      leases := leases[worktreeId := Lease(projectId, runId)];
      return true;
    }

    // The Run and its lease are inserted together, or neither.
    method CreateRun(runId: string, rows: RunRows) returns (ok: bool)
      requires FreshRun(View(), runId, rows)
      modifies this`runs, this`leases
      ensures ok <==> Takable(old(View()), rows.run.worktreeId.value, rows.run.projectId, runId)
      ensures ok ==> runs == old(runs)[runId := rows]
                     && leases == old(leases)[rows.run.worktreeId.value := Lease(rows.run.projectId, runId)]
      ensures !ok ==> runs == old(runs) && leases == old(leases)
      ensures ok <==> StartRun(old(View()), runId, rows) == Some(View())
    {
      ok := ClaimWorktreeLease(rows.run.worktreeId.value, rows.run.projectId, runId);
      if ok {
        runs := runs[runId := rows];
      }
    }

    method AcquireWorktreeMutationLease(worktreeId: string, projectId: string, runId: string) returns (ok: bool)
      modifies this`leases
      ensures ok <==> runId in runs && runs[runId].run.projectId == projectId && runs[runId].run.worktreeId == Some(worktreeId)
                      && runs[runId].run.status == Active && Takable(old(View()), worktreeId, projectId, runId)
      ensures leases == if ok then old(leases)[worktreeId := Lease(projectId, runId)] else old(leases)
      ensures AcquireLease(old(View()), worktreeId, projectId, runId) == if ok then Some(View()) else None
    {
      if runId !in runs || runs[runId].run.projectId != projectId || runs[runId].run.worktreeId != Some(worktreeId) {
        return false;
      }
      if runs[runId].run.status != Active { return false; }
      ok := ClaimWorktreeLease(worktreeId, projectId, runId);
    }

    // Only the terminal holder gives a lease back.
    method ReleaseWorktreeMutationLease(worktreeId: string, runId: string) returns (ok: bool)
      modifies this`leases
      ensures ok <==> (worktreeId in old(leases) ==>
                         old(leases)[worktreeId].holderRunId == runId && runId in runs && runs[runId].run.status == Completed)
      ensures leases == if ok then old(leases) - {worktreeId} else old(leases)
      ensures ReleaseLease(old(View()), worktreeId, runId) == if ok then Some(View()) else None
    {
      if worktreeId !in leases {
        assert leases - {worktreeId} == leases;
        return true;
      }
      if leases[worktreeId].holderRunId != runId { return false; }
      if runId !in runs || runs[runId].run.status != Completed { return false; }
      leases := leases - {worktreeId};
      return true;
    }

    // The lease is claimed again before the Run is active.
    method ResumeBlockedRun(runId: string) returns (ok: bool)
      requires runId in runs
      modifies this`runs, this`leases
      ensures old(runs)[runId].run.status != Blocked ==> ok && View() == old(View())
      ensures old(runs)[runId].run.status == Blocked ==> (
                var run := old(runs)[runId].run;
                && (ok <==> (run.worktreeId.Some? ==> Takable(old(View()), run.worktreeId.value, run.projectId, runId)))
                && (ok ==> runs == old(runs)[runId := old(runs)[runId].(run := run.(status := Active))]
                           && (run.worktreeId.Some? ==>
                                 run.worktreeId.value in leases && leases[run.worktreeId.value] == Lease(run.projectId, runId)))
                && (!ok ==> View() == old(View())))
      ensures ResumeRun(old(View()), runId) == if ok then Some(View()) else None
    {
      var rows := runs[runId];
      if rows.run.status != Blocked { return true; }
      if rows.run.worktreeId.Some? {
        var acquired := ClaimWorktreeLease(rows.run.worktreeId.value, rows.run.projectId, runId);
        if !acquired { return false; }
      }
      runs := runs[runId := rows.(run := rows.run.(status := Active))];
      return true;
    }

    // Every lock of the project is looked at; a stale one is deleted.
    method SweepStaleLocks(projectId: string)
      modifies this`locks
      ensures KeepsLocksInUse(old(View()), locks, projectId)
      ensures View() == SweepLocks(old(View()), projectId)
    {
      SweepKeepsLocksInUse(View(), projectId);
      var listed := locks.Keys;
      while listed != {}
        invariant listed <= locks.Keys
        invariant locks == map ws | ws in old(locks)
                                    && (ws in listed || !(old(locks)[ws].projectId == projectId
                                                          && StaleLock(old(View()), ws, old(locks)[ws]))) :: old(locks)[ws]
      {
        var ws :| ws in listed;
        listed := listed - {ws};
        var lock := locks[ws];
        var expired := lock.expiresAt <= clock;
        var invalidOwner := lock.holderRunId !in runs || runs[lock.holderRunId].run.projectId != lock.projectId
          || runs[lock.holderRunId].run.workspaceId != Some(ws);
        var terminal := lock.holderRunId in runs && runs[lock.holderRunId].run.status != Active;
        if lock.projectId == projectId && (expired || invalidOwner || terminal) {
          locks := locks - {ws};
        }
      }
    }

    method ReleaseLeases(gone: Lease -> bool)
      modifies this`leases
      ensures leases == LeasesWithout(old(View()), gone)
    {
      var listed := leases.Keys;
      while listed != {}
        invariant listed <= leases.Keys
        invariant leases == map wt | wt in old(leases) && (wt in listed || !gone(old(leases)[wt])) :: old(leases)[wt]
      {
        var wt :| wt in listed;
        listed := listed - {wt};
        if gone(leases[wt]) {
          leases := leases - {wt};
        }
      }
    }

    // An accepted completion: the Run is terminal, steps never started are cancelled, its leases are given up.
    method PersistAcceptedCompletion(runId: string)
      requires runId in runs
      modifies this`runs, this`leases, this`locks
      ensures runs == old(runs)[runId := CompletedRows(old(runs)[runId])]
      ensures runs[runId].run == old(runs)[runId].run.(status := Completed)
              && runs[runId].steps.Keys == old(runs)[runId].steps.Keys
              && (forall st :: st in runs[runId].steps ==>
                    runs[runId].steps[st] == if NeverStarted(old(runs)[runId], st)
                                             then old(runs)[runId].steps[st].(state := Cancelled) else old(runs)[runId].steps[st])
              && runs[runId].attempts == old(runs)[runId].attempts && runs[runId].provenance == old(runs)[runId].provenance
      ensures forall wt :: wt in leases <==> wt in old(leases) && old(leases)[wt] != Lease(old(runs)[runId].run.projectId, runId)
      ensures forall wt :: wt in leases ==> leases[wt] == old(leases)[wt]
      ensures KeepsLocksInUse(old(View()).(runs := runs), locks, old(runs)[runId].run.projectId)
      ensures View() == CompleteRun(old(View()), runId)
    {
      var projectId := runs[runId].run.projectId;
      runs := runs[runId := CompletedRows(runs[runId])];
      ReleaseLeases((l: Lease) => l == Lease(projectId, runId));
      SweepStaleLocks(projectId);
    }

    // Abandoning deletes the Run's own lease and lock and nothing of another Run.
    method AbandonRun(runId: string)
      requires runId in runs
      modifies this`runs, this`leases, this`locks
      ensures old(runs)[runId].run.status == Completed ==> View() == old(View())
      ensures runs == old(runs)[runId := old(runs)[runId].(run := old(runs)[runId].run.(status := Completed))]
      ensures old(runs)[runId].run.status != Completed ==> (
                var run := old(runs)[runId].run;
                && leases == (if run.worktreeId.Some? && run.worktreeId.value in old(leases)
                                 && old(leases)[run.worktreeId.value].holderRunId == runId
                              then old(leases) - {run.worktreeId.value} else old(leases))
                && locks == if run.workspaceId.Some? && run.workspaceId.value in old(locks)
                               && old(locks)[run.workspaceId.value].holderRunId == runId
                            then old(locks) - {run.workspaceId.value} else old(locks))
      ensures View() == GiveUpRun(old(View()), runId)
    {
      var run := runs[runId].run;
      if run.status == Completed {
        assert runs == runs[runId := runs[runId].(run := run.(status := Completed))];
        return;
      }
      runs := runs[runId := runs[runId].(run := run.(status := Completed))];
      if run.worktreeId.Some? && run.worktreeId.value in leases && leases[run.worktreeId.value].holderRunId == runId {
        leases := leases - {run.worktreeId.value};
      }
      if run.workspaceId.Some? && run.workspaceId.value in locks && locks[run.workspaceId.value].holderRunId == runId {
        locks := locks - {run.workspaceId.value};
      }
    }

    method ReconcileTerminalLifecycle(projectId: string)
      modifies this`leases, this`locks
      ensures forall wt :: wt in leases <==>
                wt in old(leases) && !(old(leases)[wt].projectId == projectId && old(leases)[wt].holderRunId in runs
                                       && runs[old(leases)[wt].holderRunId].run.status == Completed)
      ensures forall wt :: wt in leases ==> leases[wt] == old(leases)[wt]
      ensures KeepsLocksInUse(old(View()), locks, projectId)
      ensures View() == ReconcileLifecycle(old(View()), projectId)
    {
      var owners := runs;
      ReleaseLeases((l: Lease) => l.projectId == projectId && l.holderRunId in owners && owners[l.holderRunId].run.status == Completed);
      SweepStaleLocks(projectId);
    }

    // ---- Owner fence ----

    method AcquireOwnerWorkspaceMutationFence(host: Host, runId: string, snap: Snapshot,
                                              recoveryAttemptId: Option<string>, session: string, ttl: nat)
      returns (result: Result<Lock, DeliveryError>)
      modifies this`workspaces, this`locks
      ensures result.Ok? <==>
                ttl > 0 && RunsHere(old(View()), host, runId, snap) && Complete(snap, session)
                && AtSnapshot(old(View()), runId, snap)
                && TreeFits(old(View()), runId, snap, if recoveryAttemptId.Some? then PostCommit else Pre)
                && (recoveryAttemptId.Some? ==> AwaitsReport(old(View()), runId, recoveryAttemptId.value))
                && snap.workspaceId in old(workspaces) && old(workspaces)[snap.workspaceId].projectId == snap.projectId
                && !HeldByOther(old(View()), snap.workspaceId, runId, session)
      ensures result.Ok? ==>
                Granted(old(View()), snap.workspaceId, snap.projectId, runId, session, ttl, View(), result.value)
      ensures result.Err? ==> locks == old(locks) || locks == old(locks) - {snap.workspaceId}
      ensures HeldByOther(old(View()), snap.workspaceId, runId, session) ==> locks == old(locks)
      ensures (View(), result) == AcquireOwnerFence(old(View()), host, runId, snap, recoveryAttemptId, session, ttl)
    {
      FenceTakenIff(View(), host, runId, snap, recoveryAttemptId, session, ttl);
      if runId !in runs || runs[runId].run.status != Active { return Err(RunInactive); }
      if !CompleteSnapshot(snap, session) { return Err(SnapshotMissing); }
      if snap.projectId != host.projectId || snap.worktreeId != host.worktreeId || snap.workspaceId != host.workspaceId {
        return Err(AuthorityLost);
      }
      if recoveryAttemptId.Some? && !PendingHostWorkerDelivery(View(), runId, recoveryAttemptId.value) {
        return Err(OwnerMutationStale);
      }
      var outcome := AcquireWorkspaceMutationLock(snap.workspaceId, snap.projectId, runId, session, ttl);
      if outcome.LockRejected? { return Err(AuthorityLost); }
      if outcome.LockHeld? { return Err(FenceLost); }
      var phase := if recoveryAttemptId.Some? then PostCommit else Pre;
      var failure := AssertCAS(View(), host, runId, snap, session, outcome.lock.fencingToken, phase);
      if failure.Some? {
        var _ := ReleaseWorkspaceMutationLock(snap.workspaceId, runId, session, outcome.lock.fencingToken);
        return Err(failure.value);
      }
      result := Ok(outcome.lock);
    }

    method RenewOwnerWorkspaceMutationFence(host: Host, runId: string, snap: Snapshot, session: string, token: nat,
                                            ttl: nat, phase: Phase)
      returns (result: Result<Lock, DeliveryError>)
      modifies this`locks
      ensures result.Ok? <==>
                ttl > 0 && RunsHere(old(View()), host, runId, snap) && Complete(snap, session)
                && AtSnapshot(old(View()), runId, snap) && TreeFits(old(View()), runId, snap, phase)
                && OwnsLock(old(View()), snap.workspaceId, runId, session, token)
                && old(locks)[snap.workspaceId].projectId == snap.projectId
      ensures locks == old(locks)
              || (OwnsLock(old(View()), snap.workspaceId, runId, session, token)
                  && locks == old(locks)[snap.workspaceId := old(locks)[snap.workspaceId].(expiresAt := clock + ttl)])
      ensures result.Ok? ==> snap.workspaceId in locks && locks[snap.workspaceId] == result.value
                             && result.value.expiresAt == clock + ttl
      ensures (View(), result) == RenewOwnerFence(old(View()), host, runId, snap, session, token, ttl, phase)
    {
      FenceRenewedIff(View(), host, runId, snap, session, token, ttl, phase);
      if runId !in runs || runs[runId].run.status != Active { return Err(RunInactive); }
      if !CompleteSnapshot(snap, session) { return Err(SnapshotMissing); }
      if !HoldsLockRow(View(), snap.workspaceId, runId, session, token)
         || locks[snap.workspaceId].projectId != snap.projectId
         || locks[snap.workspaceId].expiresAt <= clock {
        return Err(FenceLost);
      }
      var lock := locks[snap.workspaceId].(expiresAt := clock + ttl);
      locks := locks[snap.workspaceId := lock];
      var failure := AssertCAS(View(), host, runId, snap, session, token, phase);
      result := if failure.Some? then Err(failure.value) else Ok(lock);
    }

    // Observe, assert, commit, and assert again on what was committed: the
    // last assertion can only pass, because the commit made it true.
    method RecordOwnerWorkspaceMutation(host: Host, runId: string, snap: Snapshot, session: string, token: nat, patch: Patch)
      returns (result: Result<nat, DeliveryError>)
      modifies this`runs
      ensures result.Ok? <==> Recordable(old(View()), host, runId, snap, session, token, patch)
      ensures result.Err? ==> runs == old(runs)
      ensures result.Ok? ==>
                result.value == snap.mutationRevision + 1 && runId in runs
                && runs == old(runs)[runId := runs[runId]]
                && runs[runId] == old(runs)[runId].(run := runs[runId].run, provenance := runs[runId].provenance)
                && runs[runId].run == old(runs)[runId].run.(mutationRevision := snap.mutationRevision + 1,
                                                            currentIdentity := Some(patch.integrationIdentity))
                && runs[runId].provenance == Some(Provenance(
                     snap.projectId, Some(snap.workspaceId), old(runs)[runId].run.sourceIdentity, snap.mutationRevision + 1,
                     patch.changedPaths, patch.integrationIdentity, patch.digest, None))
      ensures (View(), result) == RecordOwnerMutation(old(View()), host, runId, snap, session, token, patch)
    {
      RecordSucceedsIff(View(), host, runId, snap, session, token, patch);
      var delivered := Observe(View(), host.workspaceId).identity;
      var failure := AssertCAS(View(), host, runId, snap, session, token, Post);
      if failure.Some? { return Err(failure.value); }
      if patch.integrationIdentity == "" || delivered != patch.integrationIdentity { return Err(IdentityMismatch); }
      if patch.digest == "" || patch.changedPaths == {} { return Err(InputIncomplete); }
      var provenance := Provenance(
        snap.projectId, Some(snap.workspaceId), runs[runId].run.sourceIdentity, snap.mutationRevision + 1,
        patch.changedPaths, delivered, patch.digest, None);
      var error := ObserveWorkspaceIdentityCAS(runId, snap.mutationRevision, snap.identity, delivered, provenance);
      if error.Some? {
        assert error == Some(MutationNotObserved);
        return Err(error.value);
      }
      var committed := snap.(mutationRevision := snap.mutationRevision + 1, identity := delivered);
      assert AssertCAS(View(), host, runId, committed, session, token, PostCommit).None?;
      result := Ok(runs[runId].run.mutationRevision);
    }

    // ---- Plain observation and the step ledger ----

    method ObserveWorkspaceIdentity(runId: string, identity: string, claim: Option<Claim>) returns (changed: bool)
      requires runId in runs
      modifies this`runs
      ensures changed <==> (old(runs)[runId].run.currentIdentity.Some? && old(runs)[runId].run.currentIdentity != Some(identity))
      ensures runId in runs && runs == old(runs)[runId := runs[runId]]
      ensures (var run := old(runs)[runId].run;
               runs[runId].run == run.(currentIdentity := Some(identity),
                                       mutationRevision := run.mutationRevision + (if changed then 1 else 0)))
      ensures runs[runId].attempts == old(runs)[runId].attempts && runs[runId].steps == old(runs)[runId].steps
      ensures (var run := runs[runId].run;
               runs[runId].provenance
               == match claim
                  case Some(c) =>
                    if old(runs)[runId].run.currentIdentity.None? then old(runs)[runId].provenance
                    else Some(Provenance(
                      run.projectId, if c.workspaceId == None then run.workspaceId else c.workspaceId, run.sourceIdentity,
                      run.mutationRevision, c.changedPaths, identity, if c.digest == None then identity else c.digest.value,
                      c.attemptId))
                  case None => old(runs)[runId].provenance)
      ensures runs[runId] == ObserveIdentity(old(runs)[runId], identity, claim)
    {
      var rows := runs[runId];
      if rows.run.currentIdentity == Some(identity) {
        if claim.Some? { rows := rows.(provenance := Some(ClaimedProvenance(rows.run, identity, claim.value))); }
        runs := runs[runId := rows];
        return false;
      }
      changed := rows.run.currentIdentity.Some?;
      rows := rows.(run := rows.run.(
        currentIdentity := Some(identity),
        mutationRevision := if changed then rows.run.mutationRevision + 1 else rows.run.mutationRevision));
      if changed && claim.Some? {
        rows := rows.(provenance := Some(ClaimedProvenance(rows.run, identity, claim.value)));
      }
      runs := runs[runId := rows];
    }

    // Only a live attempt is interrupted; any other is left as it is.
    method InterruptAttempt(runId: string, attemptId: string)
      modifies this`runs
      ensures (if runId in old(runs) && attemptId in old(runs)[runId].attempts
                  && old(runs)[runId].attempts[attemptId].status in {Started, Reported, Verifying}
               then runs == old(runs)[runId := old(runs)[runId].(
                      attempts := old(runs)[runId].attempts[
                        attemptId := old(runs)[runId].attempts[attemptId].(status := Interrupted, finished := true)])]
               else runs == old(runs))
      ensures runId in old(runs) && attemptId in old(runs)[runId].attempts && LiveAttempt(old(runs)[runId].attempts[attemptId]) ==>
                runs == old(runs)[runId := InterruptRows(old(runs)[runId], attemptId)]
    {
      if runId !in runs || attemptId !in runs[runId].attempts { return; }
      var rows := runs[runId];
      var current := rows.attempts[attemptId];
      if current.status !in {Started, Reported, Verifying} { return; }
      runs := runs[runId := rows.(attempts := rows.attempts[attemptId := current.(status := Interrupted, finished := true)])];
    }

    // The attempt is finished, then the step failed, whatever state it was in.
    method FailStepAttempt(runId: string, stepId: string, attemptId: Option<string>)
      requires runId in runs && stepId in runs[runId].steps
      requires attemptId.Some? ==> attemptId.value in runs[runId].attempts
      modifies this`runs
      ensures runId in runs && (
                var rows, rows' := old(runs)[runId], runs[runId];
                && runs == old(runs)[runId := rows'] && rows'.run == rows.run && rows'.provenance == rows.provenance
                && rows'.steps == rows.steps[stepId := rows.steps[stepId].(state := Failed)]
                && rows'.attempts == match attemptId
                     case None => rows.attempts
                     case Some(id) => rows.attempts[id := rows.attempts[id].(
                       finished := true, status := if rows.attempts[id].status == Interrupted then Interrupted else FailedAttempt)])
      ensures runs == old(runs)[runId := FailStepRows(old(runs)[runId], stepId, attemptId)]
    {
      var rows := runs[runId];
      if attemptId.Some? {
        var attempt := rows.attempts[attemptId.value];
        var status := if attempt.status == Interrupted then Interrupted else FailedAttempt;
        rows := rows.(attempts := rows.attempts[attemptId.value := attempt.(status := status, finished := true)]);
      }
      var step := rows.steps[stepId];
      runs := runs[runId := rows.(steps := rows.steps[stepId := step.(state := Failed)])];
    }

    // One transaction: the unsettled steps are superseded, the new ones inserted.
    method ReplaceRunPlanAtomic(runId: string, currentPlanRevision: nat, replacement: map<string, Step>, resume: bool)
      returns (ok: bool)
      modifies this`runs
      ensures ok <==> (runId in old(runs) && old(runs)[runId].run.planRevision == currentPlanRevision
                       && replacement.Keys !! old(runs)[runId].steps.Keys)
      ensures ok ==> runs == old(runs)[runId := ReplanRows(old(runs)[runId], replacement, resume)]
      ensures ok ==> runId in runs
      ensures ok ==> (
                var rows, rows' := old(runs)[runId], runs[runId];
                && runs == old(runs)[runId := rows'] && rows'.attempts == rows.attempts && rows'.provenance == rows.provenance
                && Supersedes(rows, replacement, rows'.steps)
                && rows'.run == rows.run.(planRevision := currentPlanRevision + 1,
                                          status := if resume && rows.run.status == Blocked then Active else rows.run.status))
      ensures !ok ==> runs == old(runs)
    {
      if runId !in runs { return false; }
      var rows := runs[runId];
      if rows.run.planRevision != currentPlanRevision || !(replacement.Keys !! rows.steps.Keys) { return false; }
      var steps := map st | st in rows.steps ::
        if rows.steps[st].planRevision == currentPlanRevision && rows.steps[st].state !in {Passed, Superseded, Cancelled}
        then rows.steps[st].(state := Superseded) else rows.steps[st];
      var status := if resume && rows.run.status == Blocked then Active else rows.run.status;
      assert steps == map st | st in rows.steps :: Superseding(rows.run, rows.steps[st]);
      runs := runs[runId := rows.(
        run := rows.run.(planRevision := rows.run.planRevision + 1, status := status), steps := steps + replacement)];
      return true;
    }

    // ---- Restart recovery ----

    // The current mutation is linked to the one settled owner report that explains it.
    method ReconcileOwnerMutationProvenance(runId: string)
      requires runId in runs
      modifies this`runs
      ensures runId in runs && runs == old(runs)[runId := old(runs)[runId].(provenance := runs[runId].provenance)]
      ensures runs[runId].provenance.Some? <==> old(runs)[runId].provenance.Some?
      ensures (var rows, rows' := old(runs)[runId], runs[runId];
               rows.provenance.Some? ==>
                 && rows'.provenance.value == rows.provenance.value.(attemptId := rows'.provenance.value.attemptId)
                 && (rows.provenance.value.attemptId.Some? ==> rows' == rows)
                 && (rows.provenance.value.attemptId.None? ==>
                       if exists id :: id in rows.attempts && CurrentMutation(rows) && SoleReport(runId, rows, id) then
                         rows'.provenance.value.attemptId.Some?
                         && SoleReport(runId, rows, rows'.provenance.value.attemptId.value)
                       else rows' == rows))
      ensures View() == WithRows(old(View()), runId, Reconcile(runId, old(runs)[runId]))
    {
      var rows := runs[runId];
      ReconcileOnlyLinks(runId, rows);
      assert runs == runs[runId := rows];
      if rows.provenance.None? { return; }
      var run, p := rows.run, rows.provenance.value;
      if p.attemptId.Some? || p.projectId != run.projectId || p.sourceIdentity != run.sourceIdentity
         || p.mutationRevision != run.mutationRevision || Some(p.workspaceIdentity) != run.currentIdentity
         || p.workspaceId != run.workspaceId || p.changedPaths == {} {
        return;
      }
      var candidates := set id |
        id in rows.attempts
        && (var a := rows.attempts[id];
            a.reportResult.Some? && a.kind == OwnerSession && a.status in {PassedAttempt, FailedAttempt}
            && a.reportKey.Some? && a.payloadDigest.Some? && a.finished
            && (run.ownerBindingId.None? || a.bindingId == run.ownerBindingId)
            && a.planRevision == run.planRevision && a.mutationRevision == run.mutationRevision
            && (if a.workspaceId.Some? then a.workspaceId else run.workspaceId) == run.workspaceId
            && a.endIdentity == Some(p.workspaceIdentity) && a.resultIdentity == Some(p.workspaceIdentity)
            && a.reportResult.value.runId == runId && Some(a.reportResult.value.reportKey) == a.reportKey
            && a.changedPaths == p.changedPaths && a.reportResult.value.actualChangedPaths == p.changedPaths);
      assert candidates == ReconcileCandidates(runId, rows, p);
      if |candidates| != 1 {
        forall id | id in rows.attempts && SoleReport(runId, rows, id) ensures false { SoleMember(candidates, id); }
        return;
      }
      var owner :| owner in candidates;
      forall x | x in candidates ensures x == owner { OnlyMember(candidates, owner, x); }
      assert SoleReport(runId, rows, owner);
      ReconcileLinksIff(runId, rows, owner);
      runs := runs[runId := rows.(provenance := Some(p.(attemptId := Some(owner))))];
    }

    // Only an active Run is blocked, and with it every stale lock of its project goes, its own first.
    method BlockDeliveryMaterialization(runId: string)
      modifies this`runs, this`locks
      ensures runs.Keys == old(runs).Keys
      ensures forall r :: r in runs ==>
                runs[r] == if r == runId && old(runs)[r].run.status == Active
                           then old(runs)[r].(run := old(runs)[r].run.(status := Blocked)) else old(runs)[r]
      ensures if runId in old(runs) && old(runs)[runId].run.status == Active
              then KeepsLocksInUse(old(View()).(runs := runs), locks, old(runs)[runId].run.projectId)
              else locks == old(locks)
      ensures View() == BlockRun(old(View()), runId)
    {
      if runId in runs && runs[runId].run.status == Active {
        runs := runs[runId := runs[runId].(run := runs[runId].run.(status := Blocked))];
        SweepStaleLocks(runs[runId].run.projectId);
      }
    }

    // Decided from the persisted rows and the live workspace alone. Nothing is
    // pending exactly for an inactive Run, for one with nothing persisted of a
    // delivery, and for a settled delivery on the recorded tree. Under its own fence
    // a Run waits for its apply or its settlement, without it a report can be left;
    // every other answer blocks the Run.
    method RecoverPendingDeliveryMaterialization(host: Host, runId: string, observable: bool)
      returns (outcome: RecoverOutcome)
      modifies this`runs, this`locks
      ensures outcome == NotFound <==> runId !in old(runs)
      ensures runId in old(runs) ==> (
                var rows := old(runs)[runId];
                outcome == Nothing <==>
                  rows.run.status != Active || NothingPersisted(runId, rows)
                  || (observable && DeliverySettled(rows) && RecordedHere(rows, Observe(old(View()), host.workspaceId).identity)))
      ensures runId in old(runs) && old(runs)[runId].run.status == Active ==>
                (outcome == InProgress <==>
                   observable && HoldsFence(old(View()), runId)
                   && (ApplyInDoubt(old(View()), host, runId) || StepsOpen(old(View()), host, runId)))
                && (outcome == ReportPending <==>
                      observable && !HoldsFence(old(View()), runId)
                      && StepsOpen(old(View()), host, runId) && ReportLeft(old(View()), runId))
                && runId in runs
                && (runs[runId].run.status == if outcome in {Nothing, InProgress, ReportPending} then Active else Blocked)
      ensures runId in old(runs) && old(runs)[runId].run.status == Active ==>
                runs == old(runs)[runId := RecoveredRows(old(runs)[runId], Reconcile(runId, old(runs)[runId]).provenance,
                                                         outcome.RecoveryBlocked?)]
      ensures !(runId in old(runs) && old(runs)[runId].run.status == Active) ==> runs == old(runs)
      ensures !outcome.RecoveryBlocked? ==> locks == old(locks)
      ensures (View(), outcome) == Recover(old(View()), host, runId, observable)
    {
      if runId !in runs { return NotFound; }
      if runs[runId].run.status != Active { return Nothing; }
      RecoveryAnswers(View(), host, runId, observable);
      ReconcileOwnerMutationProvenance(runId);
      outcome := DecideRecovery(host, runId, observable);
      if outcome.RecoveryBlocked? {
        BlockDeliveryMaterialization(runId);
      }
    }

    // The attempts recovery weighs: a worker's, not interrupted, whose step still carries its workspace.
    method WorkerAttempts(runId: string) returns (weighed: set<string>)
      requires runId in runs
      ensures forall id :: id in weighed <==> id in runs[runId].attempts && RecoveryAttempt(runs[runId], runs[runId].attempts[id])
    {
      var rows := runs[runId];
      weighed := set id |
        id in rows.attempts
        && (var a := rows.attempts[id];
            (a.kind == Routed || (a.kind == HostOwned && a.resultCommit.Some? && a.workerReport.Some?))
            && a.status in {Started, Reported, Verifying, PassedAttempt, FailedAttempt}
            && a.stepId in rows.steps && rows.steps[a.stepId].planRevision == rows.run.planRevision
            && rows.steps[a.stepId].executionWorkspaceId == a.workspaceId);
    }

    // The weighed attempts of the last delivery, and whether one stands at the Run's own revision.
    method WeighAttempts(runId: string) returns (relevant: set<string>, pendingApply: bool)
      requires runId in runs
      ensures (var rows := runs[runId];
               && relevant == RecoveryAttemptsAt(rows, if rows.provenance.Some? then rows.run.mutationRevision - 1
                                                       else rows.run.mutationRevision)
               && (pendingApply <==> RecoveryAttemptsAt(rows, rows.run.mutationRevision) != {}))
    {
      var rows := runs[runId];
      var weighed := WorkerAttempts(runId);
      var expected := if rows.provenance.Some? then rows.run.mutationRevision - 1 else rows.run.mutationRevision;
      relevant := set id | id in weighed && rows.attempts[id].mutationRevision == expected;
      pendingApply := exists id :: id in weighed && rows.attempts[id].mutationRevision == rows.run.mutationRevision;
      AttemptsAt(rows, weighed, expected, relevant, pendingApply);
    }

    method DecideRecovery(host: Host, runId: string, observable: bool) returns (outcome: RecoverOutcome)
      requires runId in runs
      ensures outcome == RecoveryDecision(View(), host, runId, observable)
    {
      var relevant, pendingApply := WeighAttempts(runId);
      if !pendingApply && relevant == {} && !PreparedMarker(runId, runs[runId]) { return Nothing; }
      if !observable { return RecoveryBlocked(Unobservable); }
      var identity := Observe(View(), host.workspaceId).identity;
      outcome := DecideOnWorkspace(runId, identity, relevant, pendingApply);
    }

    // Something of a delivery is persisted: the workspace decides, and then the receipts.
    method DecideOnWorkspace(runId: string, identity: string, relevant: set<string>, pendingApply: bool)
      returns (outcome: RecoverOutcome)
      requires runId in runs && relevant <= runs[runId].attempts.Keys
      requires forall id :: id in relevant ==> runs[runId].attempts[id].stepId in runs[runId].steps
      ensures outcome == WorkspaceDecision(View(), runId, identity, relevant, pendingApply)
    {
      var rows := runs[runId];
      var run := rows.run;
      if pendingApply && Some(identity) != run.currentIdentity {
        var ownerApplying := OwnerApplying(View(), runId);
        return if ownerApplying then InProgress else RecoveryBlocked(ChangedBeforeProvenance);
      }
      if rows.provenance.None? {
        return if run.currentIdentity == Some(identity) then Nothing else RecoveryBlocked(ChangedBeforeProvenance);
      }
      if run.currentIdentity != Some(identity) { return RecoveryBlocked(IdentityDiverged); }
      var p := rows.provenance.value;
      if p.workspaceIdentity != identity || p.mutationRevision != run.mutationRevision {
        return RecoveryBlocked(ProvenanceMismatch);
      }
      if run.mutationRevision == 0 || relevant == {} { return Nothing; }
      outcome := DecideReceipts(runId, relevant);
    }

    method DecideReceipts(runId: string, relevant: set<string>) returns (outcome: RecoverOutcome)
      requires runId in runs && relevant <= runs[runId].attempts.Keys && runs[runId].provenance.Some?
      requires forall id :: id in relevant ==> runs[runId].attempts[id].stepId in runs[runId].steps
      ensures outcome == ReceiptsDecision(View(), runId, relevant)
    {
      var rows := runs[runId];
      var incomplete := set id | id in relevant && !CompleteReceipt(rows.attempts[id]);
      if incomplete != {} { return RecoveryBlocked(ReceiptsIncomplete); }
      assert forall id :: id in relevant ==> id !in incomplete;
      if ReceiptPaths(rows, relevant) != rows.provenance.value.changedPaths { return RecoveryBlocked(PathsDoNotReconstruct); }
      var unresolved := set id | id in relevant && !SettledStep(rows.steps[rows.attempts[id].stepId]);
      assert forall id :: id in relevant && id !in unresolved ==> SettledStep(rows.steps[rows.attempts[id].stepId]);
      if unresolved != {} {
        if OwnerApplying(View(), runId) { return InProgress; }
        var candidate := exists id :: id in relevant && relevant == {id} && PendingHostWorkerDelivery(View(), runId, id);
        return if candidate then ReportPending else RecoveryBlocked(StepsUnsettled);
      }
      return Nothing;
    }

    // ---- Settlement ----

    // A settlement is admitted exactly when all of its conditions hold, and then
    // moves its one step and its one attempt.
    method SettleParallelResult(host: Host, runId: string, payload: WorkerPayload, mutation: DeliveryMutation,
                                receipt: WorkerReceipt, guarded: bool, passed: bool)
      returns (rejection: Option<SettlementRejection>)
      modifies this`runs
      ensures rejection.None? <==> SettlementAdmissible(old(View()), host, runId, payload, mutation, receipt, guarded)
      ensures rejection == SettlementDecision(old(View()), host, runId, payload, mutation, receipt, guarded)
      ensures rejection.Some? ==> runs == old(runs)
      ensures rejection.None? ==> (
                runId in runs &&
                var rows, rows' := old(runs)[runId], runs[runId];
                && runs == old(runs)[runId := rows']
                && rows'.run == rows.run && rows'.provenance == rows.provenance
                && rows'.attempts == rows.attempts[payload.attemptId := rows.attempts[payload.attemptId].(
                     status := if passed then PassedAttempt else FailedAttempt, finished := true)]
                && rows'.steps == rows.steps[payload.stepId := rows.steps[payload.stepId].(
                     state := if passed then Passed else Failed)]
                && rows' == SettleRows(rows, payload.attemptId, payload.stepId, Some(passed)))
    {
      SettlementIff(View(), host, runId, payload, mutation, receipt, guarded);
      rejection := CheckSettlement(host, runId, payload, mutation, receipt, guarded);
      if rejection.None? {
        var rows := runs[runId];
        var step := rows.steps[payload.stepId].(state := if passed then Passed else Failed);
        rows := rows.(steps := rows.steps[payload.stepId := step]);
        var attempt := rows.attempts[payload.attemptId].(
          status := if passed then PassedAttempt else FailedAttempt, finished := true);
        runs := runs[runId := rows.(attempts := rows.attempts[payload.attemptId := attempt])];
      }
    }

    method CheckSettlement(host: Host, runId: string, payload: WorkerPayload, mutation: DeliveryMutation,
                           receipt: WorkerReceipt, guarded: bool)
      returns (rejection: Option<SettlementRejection>)
      ensures rejection == SettlementDecision(View(), host, runId, payload, mutation, receipt, guarded)
    {
      if runId !in runs || mutation.expectedIdentity == "" || mutation.deliveryIdentity == "" {
        return Some(NoCommittedMutation);
      }
      var rows := runs[runId];
      var run := rows.run;
      if Observe(View(), host.workspaceId).identity != mutation.deliveryIdentity { return Some(DeliveryIdentityStale); }
      var committed := mutation.expectedRevision + 1;
      var matches := mutation.changed && mutation.changedPaths != {} && mutation.patchDigest != ""
        && mutation.integrationIdentity == mutation.deliveryIdentity && mutation.mutationRevision == committed
        && run.status == Active && run.mutationRevision == committed
        && run.currentIdentity == Some(mutation.deliveryIdentity)
        && rows.provenance.Some?
        && rows.provenance.value.mutationRevision == committed
        && rows.provenance.value.projectId == run.projectId && rows.provenance.value.workspaceId == run.workspaceId
        && rows.provenance.value.workspaceIdentity == mutation.deliveryIdentity
        && rows.provenance.value.changedPaths == mutation.changedPaths
        && rows.provenance.value.mutationDigest == mutation.patchDigest;
      if !matches { return Some(DeliveryMutationStale); }
      if payload.changedPaths != receipt.changedPaths { return Some(WorkerPathsMismatch); }
      var omitted := payload.changedPaths - mutation.changedPaths;
      if omitted != {} { return Some(WorkerPathsOmitted); }
      assert forall path :: path in payload.changedPaths && path !in omitted ==> path in mutation.changedPaths;
      rejection := CheckSettlementStep(runId, payload, mutation, receipt.workspaceId, receipt.baseIdentity);
      if rejection.Some? { return; }
      var attempt := rows.attempts[payload.attemptId];
      if attempt.kind == HostOwned {
        var fenced := run.workspaceId.Some? && run.workspaceId.value in locks
          && locks[run.workspaceId.value].holderRunId == runId
          && locks[run.workspaceId.value].sessionToken == host.sessionToken
          && clock < locks[run.workspaceId.value].expiresAt;
        if !guarded || !fenced { return Some(GuardRequired); }
      }
      if receipt.baseIdentity == "" || receipt.resultIdentity == "" || receipt.resultCommit == ""
         || receipt.patchDigest == "" || receipt.changedPaths == {} {
        return Some(ReceiptIncomplete);
      }
      if !SameReceipt(attempt, payload.attemptId, receipt) { return Some(ReceiptMismatch); }
      return None;
    }

    method CheckSettlementStep(runId: string, payload: WorkerPayload, mutation: DeliveryMutation,
                               workerWorkspaceId: string, workerIdentity: string)
      returns (rejection: Option<SettlementRejection>)
      requires runId in runs
      ensures rejection == ResolveParallelSettlementStep(runs[runId], payload, mutation, workerWorkspaceId, workerIdentity)
    {
      var rows := runs[runId];
      var run := rows.run;
      if run.status != Active { return Some(RunNotActive); }
      if payload.stepId !in rows.steps || rows.steps[payload.stepId].planRevision != run.planRevision {
        return Some(StepNotLive);
      }
      var step := rows.steps[payload.stepId];
      if step.state in {Passed, Superseded, Cancelled} { return Some(StepAlreadySettled); }
      if run.mutationRevision != mutation.expectedRevision + 1 || run.currentIdentity == Some(mutation.expectedIdentity) {
        return Some(SettlementRevisionStale);
      }
      if step.executionWorkspaceId != Some(workerWorkspaceId) || payload.workspaceId != workerWorkspaceId {
        return Some(WorkspaceMismatched);
      }
      if payload.attemptId !in rows.attempts || rows.attempts[payload.attemptId].status !in {Started, Reported, Verifying} {
        return Some(AttemptNotActive);
      }
      var attempt := rows.attempts[payload.attemptId];
      if attempt.mutationRevision != mutation.expectedRevision { return Some(AttemptLineage); }
      if attempt.workspaceId != Some(workerWorkspaceId)
         || (workerIdentity != "" && attempt.baseIdentity != Some(workerIdentity)) {
        return Some(AttemptLineage);
      }
      if attempt.capsuleId.Some? && attempt.capsuleId != payload.capsuleId { return Some(CapsuleMismatch); }
      if attempt.bindingId.Some? && attempt.bindingId != payload.bindingId { return Some(BindingMismatch); }
      return None;
    }
  }

  // Every fact about the answer at once.
  lemma RecoveryAnswers(s: Store, host: Host, r: string, observable: bool)
    requires r in s.runs && s.runs[r].run.status == Active
    ensures (var (s', outcome) := Recover(s, host, r, observable);
             && (outcome == Nothing
                 <==> NothingPersisted(r, s.runs[r])
                      || (observable && DeliverySettled(s.runs[r])
                          && RecordedHere(s.runs[r], Observe(s, host.workspaceId).identity)))
             && (outcome == InProgress
                 <==> observable && HoldsFence(s, r) && (ApplyInDoubt(s, host, r) || StepsOpen(s, host, r)))
             && (outcome == ReportPending
                 <==> observable && !HoldsFence(s, r) && StepsOpen(s, host, r) && ReportLeft(s, r))
             && s' == RecoveredStore(s, r, Reconcile(r, s.runs[r]).provenance, outcome.RecoveryBlocked?)
             && r in s'.runs
             && s'.runs[r].run.status == if outcome in {Nothing, InProgress, ReportPending} then Active else Blocked)
  {
    NothingIff(s, host, r, observable);
    InProgressIff(s, host, r, observable);
    ReportPendingIff(s, host, r, observable);
    EveryOtherAnswerBlocks(s, host, r, observable);
    RecoveryTouches(s, host, r, observable);
  }

  // The filters over the attempts pick what recovery weighs at a revision.
  lemma AttemptsAt(rows: RunRows, weighed: set<string>, expected: int, relevant: set<string>, pending: bool)
    requires forall id :: id in weighed <==> id in rows.attempts && RecoveryAttempt(rows, rows.attempts[id])
    requires relevant == set id | id in weighed && rows.attempts[id].mutationRevision == expected
    requires pending <==> exists id :: id in weighed && rows.attempts[id].mutationRevision == rows.run.mutationRevision
    ensures relevant == RecoveryAttemptsAt(rows, expected)
    ensures pending <==> RecoveryAttemptsAt(rows, rows.run.mutationRevision) != {}
  {
    if pending {
      var id :| id in weighed && rows.attempts[id].mutationRevision == rows.run.mutationRevision;
      assert id in RecoveryAttemptsAt(rows, rows.run.mutationRevision);
    }
  }
}
