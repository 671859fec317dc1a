/** The lease side of the protocol: which Run may mutate a worktree. */
module WorktreeAuthority {
  import opened Prelude
  import opened KernelRows

  datatype BindingError =
    | RunNotFound
    | BindingInvalid
    | ProjectMismatch
    | Unbound
    | WorktreeMismatch
    | WorkspaceMismatch
    | LeaseMissing
    | LeaseConflict

  datatype Binding = ByWorktree | ByWorkspace

  function AssertRunWorktreeBinding(s: Store, runId: string, host: Host): Result<Binding, BindingError> {
    if runId == "" || runId !in s.runs then Err(RunNotFound)
    else if host.projectId == "" || host.worktreeId == "" then Err(BindingInvalid)
    else
      var run := s.runs[runId].run;
      if run.projectId == "" || run.projectId != host.projectId then Err(ProjectMismatch)
      else match (run.worktreeId, run.workspaceId)
        case (None, None) => Err(Unbound)
        case (Some(worktree), _) => if worktree == host.worktreeId then Ok(ByWorktree) else Err(WorktreeMismatch)
        case (None, Some(workspace)) => if workspace == host.workspaceId then Ok(ByWorkspace) else Err(WorkspaceMismatch)
  }

  // A completed Run needs no lease: it may no longer mutate anything.
  function AssertRunWorktreeMutationAuthority(s: Store, runId: string, host: Host): Result<Option<Lease>, BindingError> {
    match AssertRunWorktreeBinding(s, runId, host)
    case Err(e) => Err(e)
    case Ok(_) =>
      if s.runs[runId].run.status == Completed then Ok(None)
      else if host.worktreeId !in s.leases then Err(LeaseMissing)
      else
        var lease := s.leases[host.worktreeId];
        if lease.projectId != host.projectId || lease.holderRunId != runId then Err(LeaseConflict)
        else Ok(Some(lease))
  }

  // A session may mutate for a Run of its project and worktree, or of its workspace where the Run has no
  // worktree, that is at its end or holds the lease.
  lemma MutationAllowedIff(s: Store, runId: string, host: Host)
    ensures AssertRunWorktreeMutationAuthority(s, runId, host).Ok?
            <==> "" !in {runId, host.projectId, host.worktreeId} && runId in s.runs
                 && (var run := s.runs[runId].run;
                     run.projectId == host.projectId
                     && (run.worktreeId == Some(host.worktreeId)
                         || (run.worktreeId == None && run.workspaceId == Some(host.workspaceId)))
                     && (run.status == Completed
                         || (host.worktreeId in s.leases && s.leases[host.worktreeId] == Lease(host.projectId, runId))))
  {
  }

  // At most one live Run per worktree passes, whichever sessions ask.
  lemma OneLiveRunPerWorktree(s: Store, left: string, right: string, hostL: Host, hostR: Host)
    requires hostL.worktreeId == hostR.worktreeId
    requires AssertRunWorktreeMutationAuthority(s, left, hostL).Ok?
    requires AssertRunWorktreeMutationAuthority(s, right, hostR).Ok?
    ensures s.runs[left].run.status != Completed && s.runs[right].run.status != Completed ==> left == right
  {
    if s.runs[left].run.status != Completed && s.runs[right].run.status != Completed {
      assert s.leases[hostL.worktreeId].holderRunId == left;
    }
  }
}
