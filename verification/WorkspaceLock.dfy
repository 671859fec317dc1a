/** Who gets the workspace lock, said from the rows alone. */
module WorkspaceLock {
  import opened Prelude
  import opened KernelRows
  import opened Delivery

  // The Run is of the workspace's project and bound to it, to none, or has a step executing in it.
  predicate Registered(s: Store, workspaceId: string, projectId: string, runId: string) {
    workspaceId in s.workspaces && s.workspaces[workspaceId].projectId == projectId
    && runId in s.runs && s.runs[runId].run.projectId == projectId
    && (s.runs[runId].run.workspaceId == None || s.runs[runId].run.workspaceId == Some(workspaceId)
        || exists st :: st in s.runs[runId].steps && s.runs[runId].steps[st].executionWorkspaceId == Some(workspaceId))
  }

  // An unexpired row of another Run, or of another session of the same Run.
  predicate HeldByOther(s: Store, workspaceId: string, runId: string, session: string) {
    workspaceId in s.locks && s.clock < s.locks[workspaceId].expiresAt
    && (s.locks[workspaceId].holderRunId, s.locks[workspaceId].sessionToken) != (runId, session)
  }

  // The row is the caller's, with the next token after the epoch and the row it replaces.
  predicate Granted(s: Store, workspaceId: string, projectId: string, runId: string, session: string, ttl: nat,
                    s': Store, lock: Lock)
    requires workspaceId in s.workspaces
  {
    var epoch := s.workspaces[workspaceId].epoch;
    var replaced := if workspaceId in s.locks then s.locks[workspaceId].fencingToken else 0;
    && lock == Lock(projectId, runId, session, lock.fencingToken, s.clock + ttl)
    && epoch < lock.fencingToken && replaced < lock.fencingToken && lock.fencingToken - 1 in {epoch, replaced}
    && s' == s.(workspaces := s.workspaces[workspaceId := s.workspaces[workspaceId].(epoch := lock.fencingToken)],
                locks := s.locks[workspaceId := lock])
  }

  // A registered caller gets the live row of another holder or session back, and otherwise the lock.
  lemma LockGoesToOneHolder(s: Store, workspaceId: string, projectId: string, runId: string, session: string, ttl: nat)
    ensures (var outcome := AcquireLock(s, workspaceId, projectId, runId, session, ttl);
             if !Registered(s, workspaceId, projectId, runId) then outcome == LockRejected
             else if HeldByOther(s, workspaceId, runId, session) then outcome == LockHeld(s.locks[workspaceId])
             else outcome.LockAcquired?
                  && Granted(s, workspaceId, projectId, runId, session, ttl, outcome.store, outcome.lock))
  {
    if runId in s.runs {
      var steps := s.runs[runId].steps;
      assert forall st :: st in steps ==> steps[st] in steps.Values;
    }
  }
}
