/** Which leases can be taken and which locks are still of use, said from the rows alone. */
module StoreConditions {
  import opened Prelude
  import opened KernelRows
  import opened Delivery
  import opened RunLifecycle

  // Nobody holds the lease, the Run itself does, or a Run that is gone or at its end.
  predicate Takable(s: Store, worktreeId: string, projectId: string, runId: string) {
    worktreeId !in s.leases
    || (s.leases[worktreeId].holderRunId == runId && s.leases[worktreeId].projectId == projectId)
    || s.leases[worktreeId].holderRunId !in s.runs
    || s.runs[s.leases[worktreeId].holderRunId].run.status == Completed
  }

  lemma TakableIff(s: Store, worktreeId: string, projectId: string, runId: string)
    ensures LeaseFree(s, worktreeId, projectId, runId) <==> Takable(s, worktreeId, projectId, runId)
  {
  }

  // The lock has time left, and its holder is the active Run of the project and workspace.
  predicate InUse(s: Store, workspaceId: string, lock: Lock) {
    s.clock < lock.expiresAt && lock.holderRunId in s.runs
    && (var run := s.runs[lock.holderRunId].run;
        run.status == Active && run.projectId == lock.projectId && run.workspaceId == Some(workspaceId))
  }

  // Of one project only the locks in use are left, and every other project's.
  ghost predicate KeepsLocksInUse(s: Store, locks: map<string, Lock>, projectId: string) {
    && (forall ws :: ws in locks <==> ws in s.locks && (s.locks[ws].projectId == projectId ==> InUse(s, ws, s.locks[ws])))
    && forall ws :: ws in locks ==> locks[ws] == s.locks[ws]
  }

  lemma SweepKeepsLocksInUse(s: Store, projectId: string)
    ensures KeepsLocksInUse(s, SweepLocks(s, projectId).locks, projectId)
  {
    forall ws | ws in s.locks ensures StaleLock(s, ws, s.locks[ws]) <==> !InUse(s, ws, s.locks[ws]) {}
  }

  // A planned or ready step that no attempt was ever made for.
  predicate NeverStarted(rows: RunRows, stepId: string) {
    stepId in rows.steps && (rows.steps[stepId].state == Planned || rows.steps[stepId].state == StepState.Ready)
    && forall id :: id in rows.attempts ==> rows.attempts[id].stepId != stepId
  }

  // The unsettled steps of the replaced plan are superseded, the others stay, and the new ones are added.
  ghost predicate Supersedes(rows: RunRows, replacement: map<string, Step>, steps: map<string, Step>) {
    && steps.Keys == rows.steps.Keys + replacement.Keys
    && (forall st :: st in replacement ==> steps[st] == replacement[st])
    && forall st :: st in rows.steps && st !in replacement ==>
         steps[st] == if rows.steps[st].planRevision == rows.run.planRevision
                         && rows.steps[st].state !in {Passed, Superseded, Cancelled}
                      then rows.steps[st].(state := Superseded) else rows.steps[st]
  }
}
