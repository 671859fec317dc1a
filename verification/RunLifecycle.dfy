/**
 The life of a Run and of the worktree lease it holds: start, lease, block and
 resume, completion, abandonment, release. Each function is one transaction of
 the state store; None stands for a thrown conflict.
 */
module RunLifecycle {
  import opened Prelude
  import opened KernelRows
  import opened Delivery

  // A lease is given to its holder again, and to another Run only from one that is gone.
  predicate LeaseFree(s: Store, worktreeId: string, projectId: string, runId: string) {
    worktreeId in s.leases ==>
      (var lease := s.leases[worktreeId];
       lease == Lease(projectId, runId) || lease.holderRunId !in s.runs || s.runs[lease.holderRunId].run.status == Completed)
  }

  function ClaimLease(s: Store, worktreeId: string, projectId: string, runId: string): Option<Store> {
    if LeaseFree(s, worktreeId, projectId, runId) then Some(s.(leases := s.leases[worktreeId := Lease(projectId, runId)]))
    else None
  }

  // A new Run starts active in a registered worktree, with nothing delivered, on the tree observed there.
  predicate FreshRun(s: Store, runId: string, rows: RunRows) {
    runId !in s.runs && rows.provenance.None? && rows.attempts == map[]
    && (var run := rows.run;
        run.status == Active && run.workspaceId.Some? && run.workspaceId.value in s.workspaces
        && run.worktreeId == Some(s.workspaces[run.workspaceId.value].worktreeId)
        && run.currentIdentity == Some(Observe(s, run.workspaceId.value).identity))
  }

  // The row and its lease are inserted together, or neither.
  function StartRun(s: Store, runId: string, rows: RunRows): Option<Store>
    requires FreshRun(s, runId, rows)
  {
    match ClaimLease(s, rows.run.worktreeId.value, rows.run.projectId, runId)
    case None => None
    case Some(claimed) => Some(WithRows(claimed, runId, rows))
  }

  function AcquireLease(s: Store, worktreeId: string, projectId: string, runId: string): Option<Store> {
    if runId !in s.runs || s.runs[runId].run.projectId != projectId || s.runs[runId].run.worktreeId != Some(worktreeId)
       || s.runs[runId].run.status != Active then None
    else ClaimLease(s, worktreeId, projectId, runId)
  }

  // Only a terminal holder gives its lease back.
  function ReleaseLease(s: Store, worktreeId: string, runId: string): Option<Store> {
    if worktreeId !in s.leases then Some(s)
    else if s.leases[worktreeId].holderRunId != runId || runId !in s.runs || s.runs[runId].run.status != Completed then None
    else Some(s.(leases := s.leases - {worktreeId}))
  }

  // Resuming claims the lease again before the Run is active.
  function ResumeRun(s: Store, runId: string): Option<Store>
    requires runId in s.runs
  {
    var rows := s.runs[runId];
    var active := rows.(run := rows.run.(status := Active));
    if rows.run.status != Blocked then Some(s)
    else if rows.run.worktreeId.None? then Some(WithRows(s, runId, active))
    else match ClaimLease(s, rows.run.worktreeId.value, rows.run.projectId, runId)
      case None => None
      case Some(claimed) => Some(WithRows(claimed, runId, active))
  }

  // ---- The end of a Run ----

  function LeasesWithout(s: Store, gone: Lease -> bool): map<string, Lease> {
    map wt | wt in s.leases && !gone(s.leases[wt]) :: s.leases[wt]
  }

  predicate Untouched(rows: RunRows, stepId: string)
    requires stepId in rows.steps
  {
    rows.steps[stepId].state in {Planned, StepState.Ready}
    && forall a :: a in rows.attempts ==> rows.attempts[a].stepId != stepId
  }

  // Accepted completion cancels the steps that were never started.
  function CompletedRows(rows: RunRows): RunRows {
    rows.(run := rows.run.(status := Completed),
          steps := map st | st in rows.steps ::
                     if Untouched(rows, st) then rows.steps[st].(state := Cancelled) else rows.steps[st])
  }

  // The completed Run gives up its leases, and the stale locks of its project go.
  function CompleteRun(s: Store, runId: string): Store
    requires runId in s.runs
  {
    var completed := WithRows(s, runId, CompletedRows(s.runs[runId]));
    var projectId := s.runs[runId].run.projectId;
    SweepLocks(completed.(leases := LeasesWithout(s, (l: Lease) => l == Lease(projectId, runId))), projectId)
  }

  // Abandoning gives up the Run's own lease and its own lock, in any state but a terminal one.
  function GiveUpRun(s: Store, runId: string): Store
    requires runId in s.runs
  {
    var run := s.runs[runId].run;
    if run.status == Completed then s
    else
      var worktrees := if run.worktreeId.Some? && run.worktreeId.value in s.leases
                          && s.leases[run.worktreeId.value].holderRunId == runId then {run.worktreeId.value} else {};
      var workspaces := if run.workspaceId.Some? && run.workspaceId.value in s.locks
                           && s.locks[run.workspaceId.value].holderRunId == runId then {run.workspaceId.value} else {};
      WithRows(s, runId, s.runs[runId].(run := run.(status := Completed))).(
        leases := s.leases - worktrees, locks := s.locks - workspaces)
  }

  // Reconciling a project drops the leases of its terminal Runs and its stale locks.
  function ReconcileLifecycle(s: Store, projectId: string): Store {
    SweepLocks(s.(leases := LeasesWithout(s, (l: Lease) =>
                              l.projectId == projectId && l.holderRunId in s.runs && s.runs[l.holderRunId].run.status == Completed)),
               projectId)
  }

  // ---- A live Run holds the lease of its worktree ----

  ghost predicate Bound(s: Store, runId: string, run: Run) {
    && (run.workspaceId.Some? && run.workspaceId.value in s.workspaces
        ==> run.worktreeId == Some(s.workspaces[run.workspaceId.value].worktreeId))
    && (run.status != Completed ==> run.workspaceId.Some? && run.workspaceId.value in s.workspaces
                                    && run.worktreeId.Some? && run.worktreeId.value in s.leases
                                    && s.leases[run.worktreeId.value] == Lease(run.projectId, runId))
  }

  ghost predicate LeasesHeld(s: Store) {
    forall r :: r in s.runs ==> Bound(s, r, s.runs[r].run)
  }

  // Claiming takes no lease from a Run that is not terminal.
  lemma ClaimKeepsBound(s: Store, worktreeId: string, projectId: string, runId: string, r: string)
    requires r in s.runs && Bound(s, r, s.runs[r].run) && LeaseFree(s, worktreeId, projectId, runId)
    ensures Bound(ClaimLease(s, worktreeId, projectId, runId).value, r, s.runs[r].run)
  {
  }

  lemma StartKeepsLeases(s: Store, runId: string, rows: RunRows)
    requires LeasesHeld(s) && FreshRun(s, runId, rows) && StartRun(s, runId, rows).Some?
    ensures LeasesHeld(StartRun(s, runId, rows).value)
  {
    var s' := StartRun(s, runId, rows).value;
    forall r | r in s'.runs ensures Bound(s', r, s'.runs[r].run) {
      if r != runId { ClaimKeepsBound(s, rows.run.worktreeId.value, rows.run.projectId, runId, r); }
    }
  }

  lemma AcquireKeepsLeases(s: Store, worktreeId: string, projectId: string, runId: string)
    requires LeasesHeld(s) && AcquireLease(s, worktreeId, projectId, runId).Some?
    ensures LeasesHeld(AcquireLease(s, worktreeId, projectId, runId).value)
  {
    var s' := AcquireLease(s, worktreeId, projectId, runId).value;
    forall r | r in s'.runs ensures Bound(s', r, s'.runs[r].run) { ClaimKeepsBound(s, worktreeId, projectId, runId, r); }
  }

  lemma ReleaseKeepsLeases(s: Store, worktreeId: string, runId: string)
    requires LeasesHeld(s) && ReleaseLease(s, worktreeId, runId).Some?
    ensures LeasesHeld(ReleaseLease(s, worktreeId, runId).value)
  {
    var s' := ReleaseLease(s, worktreeId, runId).value;
    forall r | r in s'.runs ensures Bound(s', r, s'.runs[r].run) { assert Bound(s, r, s.runs[r].run); }
  }

  lemma ResumeKeepsLeases(s: Store, runId: string)
    requires LeasesHeld(s) && runId in s.runs && ResumeRun(s, runId).Some?
    ensures LeasesHeld(ResumeRun(s, runId).value)
  {
    var s', run := ResumeRun(s, runId).value, s.runs[runId].run;
    assert Bound(s, runId, run);
    if run.status == Blocked {
      forall r | r in s'.runs ensures Bound(s', r, s'.runs[r].run) {
        ClaimKeepsBound(s, run.worktreeId.value, run.projectId, runId, r);
      }
    }
  }

  lemma CompleteKeepsLeases(s: Store, runId: string)
    requires LeasesHeld(s) && runId in s.runs
    ensures LeasesHeld(CompleteRun(s, runId))
  {
    var s' := CompleteRun(s, runId);
    forall r | r in s'.runs ensures Bound(s', r, s'.runs[r].run) { assert Bound(s, r, s.runs[r].run); }
  }

  lemma AbandonKeepsLeases(s: Store, runId: string)
    requires LeasesHeld(s) && runId in s.runs
    ensures LeasesHeld(GiveUpRun(s, runId))
  {
    var s' := GiveUpRun(s, runId);
    forall r | r in s'.runs ensures Bound(s', r, s'.runs[r].run) { assert Bound(s, r, s.runs[r].run); }
  }

  lemma ReconcileKeepsLeases(s: Store, projectId: string)
    requires LeasesHeld(s)
    ensures LeasesHeld(ReconcileLifecycle(s, projectId))
  {
    var s' := ReconcileLifecycle(s, projectId);
    forall r | r in s'.runs ensures Bound(s', r, s'.runs[r].run) { assert Bound(s, r, s.runs[r].run); }
  }

  // A blocked Run has kept its lease, so it can always be resumed.
  lemma BlockedRunResumes(s: Store, runId: string)
    requires LeasesHeld(s) && runId in s.runs && s.runs[runId].run.status == Blocked
    ensures ResumeRun(s, runId) == Some(WithRows(s, runId, s.runs[runId].(run := s.runs[runId].run.(status := Active))))
  {
    var run := s.runs[runId].run;
    assert Bound(s, runId, run);
    assert s.leases[run.worktreeId.value := Lease(run.projectId, runId)] == s.leases;
  }

  // ---- What else stays ----

  // What is left of anyone's rows: a status, and cancelled steps that were never started.
  ghost predicate LivedRows(rows: RunRows, rows': RunRows) {
    rows'.attempts == rows.attempts && rows'.provenance == rows.provenance
    && rows'.run == rows.run.(status := rows'.run.status)
    && (rows.run.status == Completed ==> rows'.run.status == Completed)
    && rows'.steps.Keys == rows.steps.Keys
    && forall st :: st in rows.steps ==>
         rows'.steps[st] == rows.steps[st]
         || (Untouched(rows, st) && rows'.steps[st] == rows.steps[st].(state := Cancelled))
  }

  ghost predicate Lived(s: Store, s': Store) {
    s'.live == s.live && s'.workspaces == s.workspaces && s.runs.Keys <= s'.runs.Keys
    && (forall r :: r in s.runs ==> LivedRows(s.runs[r], s'.runs[r]))
    && (forall ws :: ws in s'.locks ==> ws in s.locks && s'.locks[ws] == s.locks[ws])
  }

  // Only the rows of the Run itself are written.
  ghost predicate OthersStay(s: Store, s': Store, runId: string) {
    forall r :: r in s.runs && r != runId ==> r in s'.runs && s'.runs[r] == s.runs[r]
  }

  lemma StartLives(s: Store, runId: string, rows: RunRows)
    requires FreshRun(s, runId, rows) && StartRun(s, runId, rows).Some?
    ensures Lived(s, StartRun(s, runId, rows).value) && OthersStay(s, StartRun(s, runId, rows).value, runId)
  {
  }

  lemma AcquireLives(s: Store, worktreeId: string, projectId: string, runId: string)
    requires AcquireLease(s, worktreeId, projectId, runId).Some?
    ensures Lived(s, AcquireLease(s, worktreeId, projectId, runId).value)
    ensures AcquireLease(s, worktreeId, projectId, runId).value.runs == s.runs
  {
  }

  lemma ReleaseLives(s: Store, worktreeId: string, runId: string)
    requires ReleaseLease(s, worktreeId, runId).Some?
    ensures Lived(s, ReleaseLease(s, worktreeId, runId).value) && ReleaseLease(s, worktreeId, runId).value.runs == s.runs
  {
  }

  lemma WrittenLives(s: Store, s': Store, runId: string, rows: RunRows)
    requires runId in s.runs && LivedRows(s.runs[runId], rows) && s'.runs == s.runs[runId := rows]
    requires s'.live == s.live && s'.workspaces == s.workspaces
    requires forall ws :: ws in s'.locks ==> ws in s.locks && s'.locks[ws] == s.locks[ws]
    ensures Lived(s, s') && OthersStay(s, s', runId)
  {
    forall r | r in s.runs ensures LivedRows(s.runs[r], s'.runs[r]) {}
  }

  lemma ResumeLives(s: Store, runId: string)
    requires runId in s.runs && ResumeRun(s, runId).Some?
    ensures Lived(s, ResumeRun(s, runId).value) && OthersStay(s, ResumeRun(s, runId).value, runId)
  {
    var rows, s' := s.runs[runId], ResumeRun(s, runId).value;
    var resumed := if rows.run.status == Blocked then rows.(run := rows.run.(status := Active)) else rows;
    assert s'.runs == s.runs[runId := resumed];
    WrittenLives(s, s', runId, resumed);
  }

  lemma CompleteLives(s: Store, runId: string)
    requires runId in s.runs
    ensures Lived(s, CompleteRun(s, runId)) && OthersStay(s, CompleteRun(s, runId), runId)
  {
    WrittenLives(s, CompleteRun(s, runId), runId, CompletedRows(s.runs[runId]));
  }

  lemma AbandonLives(s: Store, runId: string)
    requires runId in s.runs
    ensures Lived(s, GiveUpRun(s, runId)) && OthersStay(s, GiveUpRun(s, runId), runId)
  {
    var rows := s.runs[runId].(run := s.runs[runId].run.(status := Completed));
    assert s.runs[runId].run.status == Completed ==> s.runs[runId := rows] == s.runs;
    WrittenLives(s, GiveUpRun(s, runId), runId, rows);
  }

  lemma ReconcileLives(s: Store, projectId: string)
    ensures Lived(s, ReconcileLifecycle(s, projectId)) && ReconcileLifecycle(s, projectId).runs == s.runs
  {
  }
}
