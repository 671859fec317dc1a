/** What the answers of restart recovery mean, for every state of the store. */
module DeliveryRecovery {
  import opened Prelude
  import opened KernelRows
  import opened Delivery

  // ---- Linking a mutation to the report that explains it ----

  predicate CurrentMutation(rows: RunRows) {
    rows.provenance.Some?
    && (var p := rows.provenance.value;
        p.attemptId.None? && p.projectId == rows.run.projectId && p.sourceIdentity == rows.run.sourceIdentity
        && p.mutationRevision == rows.run.mutationRevision && Some(p.workspaceIdentity) == rows.run.currentIdentity
        && p.workspaceId == rows.run.workspaceId && p.changedPaths != {})
  }

  // A settled direct report whose result is exactly the recorded mutation.
  predicate Produced(runId: string, rows: RunRows, id: string)
    requires rows.provenance.Some?
  {
    id in rows.attempts && rows.attempts[id].reportResult.Some?
    && (var a, p := rows.attempts[id], rows.provenance.value;
        var result := a.reportResult.value;
        a.kind == OwnerSession && (a.status == PassedAttempt || a.status == FailedAttempt) && a.finished
        && a.payloadDigest.Some? && a.reportKey == Some(result.reportKey) && result.runId == runId
        && a.mutationRevision == p.mutationRevision
        && p.workspaceId == (match a.workspaceId case Some(_) => a.workspaceId case None => rows.run.workspaceId)
        && a.endIdentity == a.resultIdentity == Some(p.workspaceIdentity)
        && a.changedPaths == result.actualChangedPaths == p.changedPaths)
  }

  // The settled owner reports of this plan that produced exactly this mutation.
  predicate ExplainingReport(runId: string, rows: RunRows, id: string)
    requires rows.provenance.Some?
  {
    Produced(runId, rows, id)
    && (rows.run.ownerBindingId.None? || rows.attempts[id].bindingId == rows.run.ownerBindingId)
    && rows.attempts[id].planRevision == rows.run.planRevision
  }

  predicate SoleReport(runId: string, rows: RunRows, id: string)
    requires rows.provenance.Some?
  {
    ExplainingReport(runId, rows, id)
    && forall other :: other in rows.attempts && ExplainingReport(runId, rows, other) ==> other == id
  }

  lemma SoleMember<T>(s: set<T>, x: T)
    requires x in s && forall y :: y in s ==> y == x
    ensures |s| == 1
  {
    assert s == {x};
  }

  lemma OnlyMember<T>(s: set<T>, x: T, y: T)
    requires |s| == 1 && x in s && y in s
    ensures x == y
  {
    assert |s - {x}| == 0;
  }

  // Exactly the sole explaining report is linked, and only to the Run's current mutation.
  lemma ReconcileLinksIff(runId: string, rows: RunRows, id: string)
    requires rows.provenance.Some? && rows.provenance.value.attemptId.None?
    ensures Reconcile(runId, rows) == rows.(provenance := Some(rows.provenance.value.(attemptId := Some(id))))
            <==> CurrentMutation(rows) && SoleReport(runId, rows, id)
  {
    var p := rows.provenance.value;
    var candidates := ReconcileCandidates(runId, rows, p);
    assert forall x :: x in candidates <==> x in rows.attempts && ExplainingReport(runId, rows, x);
    if SoleReport(runId, rows, id) {
      SoleMember(candidates, id);
    }
    if |candidates| == 1 && id in candidates {
      forall x | x in candidates ensures x == id { OnlyMember(candidates, x, id); }
    }
  }

  // Nothing else changes, and a link is never changed.
  lemma ReconcileOnlyLinks(runId: string, rows: RunRows)
    ensures (var rows' := Reconcile(runId, rows);
             && rows' == rows.(provenance := rows'.provenance)
             && (rows' != rows ==>
                   CurrentMutation(rows)
                   && exists id :: id in rows.attempts && SoleReport(runId, rows, id)
                                   && rows'.provenance == Some(rows.provenance.value.(attemptId := Some(id)))))
    ensures Reconcile(runId, Reconcile(runId, rows)) == Reconcile(runId, rows)
  {
    var rows' := Reconcile(runId, rows);
    if rows' != rows {
      var id := rows'.provenance.value.attemptId.value;
      assert id in ReconcileCandidates(runId, rows, rows.provenance.value);
      ReconcileLinksIff(runId, rows, id);
    }
  }

  // ---- When recovery waves a Run through ----

  // The mutation on record is linked to the report that explains it, or would be.
  ghost predicate Linked(runId: string, rows: RunRows) {
    rows.provenance.Some?
    && (rows.provenance.value.attemptId.Some?
        || (CurrentMutation(rows) && exists id :: id in rows.attempts && SoleReport(runId, rows, id)))
  }

  // A settled report of the Run's owner produced it, at whatever revision and plan.
  ghost predicate Reported(runId: string, rows: RunRows)
    requires rows.provenance.Some?
  {
    rows.provenance.value.projectId == rows.run.projectId && rows.provenance.value.sourceIdentity == rows.run.sourceIdentity
    && exists id :: id in rows.attempts && Produced(runId, rows, id) && rows.attempts[id].bindingId == rows.run.ownerBindingId
  }

  // The owner mutation on record is no direct report's.
  ghost predicate Unexplained(runId: string, rows: RunRows) {
    rows.provenance.Some? && !Linked(runId, rows) && !Reported(runId, rows)
  }

  // A worker's attempt that recovery weighs unless it is lost.
  predicate Weighed(a: Attempt) {
    a.kind == Routed || (a.kind == HostOwned && a.resultCommit.Some? && a.workerReport.Some?)
  }

  predicate Lost(rows: RunRows, a: Attempt) {
    a.status == Interrupted || a.stepId !in rows.steps
    || rows.steps[a.stepId].planRevision != rows.run.planRevision
    || rows.steps[a.stepId].executionWorkspaceId != a.workspaceId
  }

  // The revisions a delivery in doubt can belong to.
  predicate InDoubt(rows: RunRows, revision: nat) {
    revision == rows.run.mutationRevision || (rows.provenance.Some? && revision + 1 == rows.run.mutationRevision)
  }

  ghost predicate NothingPersisted(runId: string, rows: RunRows) {
    && (forall id :: id in rows.attempts && Weighed(rows.attempts[id]) && InDoubt(rows, rows.attempts[id].mutationRevision)
          ==> Lost(rows, rows.attempts[id]))
    && !Unexplained(runId, rows)
  }

  // A worker's attempt at the revision the last mutation started from.
  predicate Delivered(rows: RunRows, id: string) {
    id in rows.attempts && Weighed(rows.attempts[id]) && !Lost(rows, rows.attempts[id])
    && rows.attempts[id].mutationRevision + 1 == rows.run.mutationRevision
  }

  // Everything a worker hands over is there.
  predicate Whole(a: Attempt) {
    a.workspaceId != None && a.resultIdentity != None && a.resultCommit != None && a.patchDigest != None
    && a.workerReport != None && a.changedPaths != {}
  }

  predicate Terminal(step: Step) {
    step.state == Passed || step.state == Superseded || step.state == Cancelled
  }

  // The receipts are complete and together they are the recorded mutation.
  ghost predicate Reconstructs(rows: RunRows)
    requires rows.provenance.Some?
  {
    && (forall id :: id in rows.attempts && Delivered(rows, id) ==> Whole(rows.attempts[id]))
    && forall path :: path in rows.provenance.value.changedPaths
                      <==> exists id :: id in rows.attempts && Delivered(rows, id) && path in rows.attempts[id].changedPaths
  }

  ghost predicate AnyDelivered(rows: RunRows) {
    exists id :: id in rows.attempts && Delivered(rows, id)
  }

  ghost predicate StepsTerminal(rows: RunRows) {
    forall id :: id in rows.attempts && Delivered(rows, id) ==> Terminal(rows.steps[rows.attempts[id].stepId])
  }

  // Every receipt of the last delivery is complete and settled, and together they are the mutation.
  ghost predicate DeliverySettled(rows: RunRows) {
    rows.provenance.Some? && AnyDelivered(rows) ==> Reconstructs(rows) && StepsTerminal(rows)
  }

  predicate RecordedHere(rows: RunRows, identity: string) {
    rows.run.currentIdentity == Some(identity)
    && (rows.provenance.Some? ==>
          rows.provenance.value.workspaceIdentity == identity
          && rows.provenance.value.mutationRevision == rows.run.mutationRevision)
  }

  // Reconciling leaves a prepared marker exactly for a mutation no report explains.
  lemma MarkerIsUnexplained(runId: string, rows: RunRows)
    ensures PreparedMarker(runId, Reconcile(runId, rows)) <==> Unexplained(runId, rows)
    ensures rows.provenance.Some? ==> (Linked(runId, rows) <==> Reconcile(runId, rows).provenance.value.attemptId.Some?)
  {
    ReconcileOnlyLinks(runId, rows);
    if CurrentMutation(rows) {
      forall id | id in rows.attempts ensures SoleReport(runId, rows, id) <==>
          Reconcile(runId, rows) == rows.(provenance := Some(rows.provenance.value.(attemptId := Some(id)))) {
        ReconcileLinksIff(runId, rows, id);
      }
    }
    if rows.provenance.Some? {
      forall id | id in rows.attempts
        ensures Produced(runId, rows, id) <==> SettledOwnerReceipt(rows.attempts[id], runId, rows.run, rows.provenance.value) {}
    }
  }

  lemma NothingPersistedIff(runId: string, rows: RunRows)
    ensures NothingPersisted(runId, rows) <==>
            RecoveryAttemptsAt(rows, rows.run.mutationRevision) == {}
            && (rows.provenance.Some? ==> RecoveryAttemptsAt(rows, rows.run.mutationRevision - 1) == {})
            && !PreparedMarker(runId, Reconcile(runId, rows))
  {
    MarkerIsUnexplained(runId, rows);
    forall id | id in rows.attempts && Weighed(rows.attempts[id]) && InDoubt(rows, rows.attempts[id].mutationRevision)
      ensures Lost(rows, rows.attempts[id]) <==> !RecoveryAttempt(rows, rows.attempts[id]) {}
    forall id | id in rows.attempts && RecoveryAttempt(rows, rows.attempts[id]) && InDoubt(rows, rows.attempts[id].mutationRevision)
      ensures id in RecoveryAttemptsAt(rows, rows.run.mutationRevision) || id in RecoveryAttemptsAt(rows, rows.run.mutationRevision - 1) {}
  }

  // What the filters of recovery pick at the revision before is what was delivered.
  lemma DeliveredIsRelevant(rows: RunRows)
    ensures forall id :: id in RecoveryAttemptsAt(rows, rows.run.mutationRevision - 1) <==> Delivered(rows, id)
    ensures RecoveryAttemptsAt(rows, rows.run.mutationRevision - 1) != {} <==> AnyDelivered(rows)
  {
    forall id ensures id in RecoveryAttemptsAt(rows, rows.run.mutationRevision - 1) <==> Delivered(rows, id) {}
    if id :| id in rows.attempts && Delivered(rows, id) {
      assert id in RecoveryAttemptsAt(rows, rows.run.mutationRevision - 1);
    }
  }

  lemma ReconstructsIff(rows: RunRows)
    requires rows.provenance.Some?
    ensures (var relevant := RecoveryAttemptsAt(rows, rows.run.mutationRevision - 1);
             Reconstructs(rows) <==>
             (forall id :: id in relevant ==> CompleteReceipt(rows.attempts[id]))
             && ReceiptPaths(rows, relevant) == rows.provenance.value.changedPaths)
  {
    var relevant := RecoveryAttemptsAt(rows, rows.run.mutationRevision - 1);
    DeliveredIsRelevant(rows);
    forall id | id in relevant ensures Whole(rows.attempts[id]) <==> CompleteReceipt(rows.attempts[id]) {}
    forall path ensures path in ReceiptPaths(rows, relevant)
                        <==> exists id :: id in rows.attempts && Delivered(rows, id) && path in rows.attempts[id].changedPaths {}
  }

  lemma StepsTerminalIff(rows: RunRows)
    ensures StepsTerminal(rows) <==>
            forall id :: id in RecoveryAttemptsAt(rows, rows.run.mutationRevision - 1) ==>
              SettledStep(rows.steps[rows.attempts[id].stepId])
  {
    DeliveredIsRelevant(rows);
  }

  // A link changes nothing of what was delivered.
  lemma LinkKeepsReceipts(runId: string, rows: RunRows)
    ensures (var rows' := Reconcile(runId, rows);
             && rows' == rows.(provenance := rows'.provenance)
             && (forall revision :: RecoveryAttemptsAt(rows', revision) == RecoveryAttemptsAt(rows, revision))
             && (forall id :: Delivered(rows', id) <==> Delivered(rows, id))
             && (rows.provenance.Some? ==> (Reconstructs(rows') <==> Reconstructs(rows)))
             && (StepsTerminal(rows') <==> StepsTerminal(rows))
             && (AnyDelivered(rows') <==> AnyDelivered(rows))
             && (DeliverySettled(rows') <==> DeliverySettled(rows)))
  {
    ReconcileOnlyLinks(runId, rows);
    var rows' := Reconcile(runId, rows);
    forall a: Attempt ensures RecoveryAttempt(rows', a) <==> RecoveryAttempt(rows, a) {}
    forall id ensures Delivered(rows', id) <==> Delivered(rows, id) {}
  }

  lemma ReceiptsAreNothingIff(s: Store, r: string, relevant: set<string>)
    requires r in s.runs && s.runs[r].provenance.Some?
    requires relevant == RecoveryAttemptsAt(s.runs[r], s.runs[r].run.mutationRevision - 1)
    ensures ReceiptsDecision(s, r, relevant) == Nothing <==> Reconstructs(s.runs[r]) && StepsTerminal(s.runs[r])
  {
    ReconstructsIff(s.runs[r]);
    StepsTerminalIff(s.runs[r]);
  }

  lemma WorkspaceIsNothingIff(s: Store, r: string, live: string, relevant: set<string>, pendingApply: bool)
    requires r in s.runs
    requires (var rows := s.runs[r];
              relevant == RecoveryAttemptsAt(rows, if rows.provenance.Some? then rows.run.mutationRevision - 1
                                                   else rows.run.mutationRevision))
    ensures WorkspaceDecision(s, r, live, relevant, pendingApply) == Nothing
            <==> DeliverySettled(s.runs[r]) && RecordedHere(s.runs[r], live)
  {
    var rows := s.runs[r];
    DeliveredIsRelevant(rows);
    if rows.provenance.Some? { ReceiptsAreNothingIff(s, r, relevant); }
  }

  // The decision on a reconciled store, in terms of what is persisted.
  lemma DecisionIsNothingIff(s: Store, host: Host, r: string, observable: bool)
    requires r in s.runs
    ensures (var rows := s.runs[r];
             var relevant := RecoveryAttemptsAt(rows, rows.run.mutationRevision - 1);
             RecoveryDecision(s, host, r, observable) == Nothing
             <==> (RecoveryAttemptsAt(rows, rows.run.mutationRevision) == {}
                   && (rows.provenance.Some? ==> relevant == {}) && !PreparedMarker(r, rows))
                  || (observable && DeliverySettled(rows) && RecordedHere(rows, Observe(s, host.workspaceId).identity)))
  {
    var rows := s.runs[r];
    var expected := if rows.provenance.Some? then rows.run.mutationRevision - 1 else rows.run.mutationRevision;
    WorkspaceIsNothingIff(s, r, Observe(s, host.workspaceId).identity, RecoveryAttemptsAt(rows, expected),
                          RecoveryAttemptsAt(rows, rows.run.mutationRevision) != {});
  }

  // Recovery answers that nothing is pending exactly when nothing is persisted
  // that a delivery leaves, or the workspace is the recorded one and the
  // delivery that produced it is settled.
  lemma NothingIff(s: Store, host: Host, r: string, observable: bool)
    requires r in s.runs && s.runs[r].run.status == Active
    ensures (var rows := s.runs[r];
             Recover(s, host, r, observable).1 == Nothing
             <==> NothingPersisted(r, rows)
                  || (observable && DeliverySettled(rows) && RecordedHere(rows, Observe(s, host.workspaceId).identity)))
  {
    var rows := s.runs[r];
    var reconciled := WithRows(s, r, Reconcile(r, rows));
    ReconcileOnlyLinks(r, rows);
    NothingPersistedIff(r, rows);
    LinkKeepsReceipts(r, rows);
    DecisionIsNothingIff(reconciled, host, r, observable);
  }

  // On a tree that is not the recorded one only the first half is left.
  lemma MissedIff(s: Store, host: Host, r: string, observable: bool)
    requires r in s.runs && s.runs[r].run.status == Active
    requires s.runs[r].run.currentIdentity != Some(Observe(s, host.workspaceId).identity)
    ensures Recover(s, host, r, observable).1 == Nothing <==> NothingPersisted(r, s.runs[r])
  {
    NothingIff(s, host, r, observable);
  }

  // What recovery leaves of a Run's rows: at most a link more and the status blocked.
  function RecoveredRows(rows: RunRows, provenance: Option<Provenance>, blocked: bool): RunRows {
    rows.(provenance := provenance, run := rows.run.(status := if blocked then Blocked else rows.run.status))
  }

  // What recovery makes of the store: those rows, and no stale lock of the project when it blocks.
  function RecoveredStore(s: Store, r: string, provenance: Option<Provenance>, blocked: bool): Store
    requires r in s.runs
  {
    var touched := WithRows(s, r, RecoveredRows(s.runs[r], provenance, blocked));
    if blocked then SweepLocks(touched, s.runs[r].run.projectId) else touched
  }

  lemma BlockingTouches(s: Store, r: string, provenance: Option<Provenance>)
    requires r in s.runs && s.runs[r].run.status == Active
    ensures (var linked := WithRows(s, r, s.runs[r].(provenance := provenance));
             BlockRun(linked, r) == RecoveredStore(s, r, provenance, true)
             && linked == RecoveredStore(s, r, provenance, false))
  {
    var linked := WithRows(s, r, s.runs[r].(provenance := provenance));
    assert linked.runs[r := RecoveredRows(s.runs[r], provenance, true)] == s.runs[r := RecoveredRows(s.runs[r], provenance, true)];
  }

  // Recovery rewrites nothing but its Run's link and, when it blocks, its status; blocking drops stale locks.
  lemma RecoveryTouches(s: Store, host: Host, r: string, observable: bool)
    requires r in s.runs && s.runs[r].run.status == Active
    ensures (var (s', outcome) := Recover(s, host, r, observable);
             s' == RecoveredStore(s, r, Reconcile(r, s.runs[r]).provenance, outcome.RecoveryBlocked?))
  {
    ReconcileOnlyLinks(r, s.runs[r]);
    BlockingTouches(s, r, Reconcile(r, s.runs[r]).provenance);
  }

  lemma RecoveryLeavesInactive(s: Store, host: Host, r: string, observable: bool)
    requires r in s.runs ==> s.runs[r].run.status != Active
    ensures Recover(s, host, r, observable).0 == s
  {
  }
}
