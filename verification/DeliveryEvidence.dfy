/** What keeps a delivery visible to restart recovery, step by step. */
module DeliveryEvidence {
  import opened Prelude
  import opened KernelRows
  import opened Delivery
  import opened DeliveryRecovery
  import opened RunLifecycle
  import opened DeliveryProtocol

  // ---- One receipt: what makes recovery stop counting it ----

  // An attempt recovery counts as a delivery at the current revision.
  predicate Counted(rows: RunRows, id: string) {
    id in rows.attempts && RecoveryAttempt(rows, rows.attempts[id])
    && rows.attempts[id].mutationRevision == rows.run.mutationRevision
  }

  predicate Observes(s: Store, act: Action, r: string) {
    act.ObserveWorkspace? && act.runId == r && r in s.runs
    && s.runs[r].run.currentIdentity.Some? && s.runs[r].run.currentIdentity != Some(act.identity)
  }

  // The revision of the Run moves: a delivery is recorded, or another tree observed.
  ghost predicate Moves(w: World, act: Action, r: string) {
    Recorded(w, act, r) || Observes(w.store, act, r)
  }

  // The attempt is interrupted, the plan replaced, or its step given to another workspace.
  predicate Drops(s: Store, act: Action, r: string, id: string) {
    r in s.runs && id in s.runs[r].attempts
    && (((act.Interrupt? || act.RecordFailedTurn?) && act.runId == r && act.attemptId == id)
        || (act.Replan? && act.runId == r)
        || (act.Dispatch? && act.runId == r && act.attempt.stepId == s.runs[r].attempts[id].stepId
            && act.attempt.workspaceId != s.runs[r].attempts[id].workspaceId))
  }

  lemma UnlockCounts(rows: RunRows, st: string, id: string)
    requires st in rows.steps && Counted(rows, id)
    ensures Counted(UnlockRows(rows, st), id)
  {
  }

  lemma DispatchCounts(rows: RunRows, attemptId: string, a: Attempt, id: string)
    requires CanDispatch(rows, attemptId, a) && Counted(rows, id)
    ensures Counted(DispatchRows(rows, attemptId, a), id)
            <==> !(a.stepId == rows.attempts[id].stepId && a.workspaceId != rows.attempts[id].workspaceId)
  {
  }

  lemma PersistCounts(rows: RunRows, receipt: WorkerReceipt, id: string)
    requires CanPersist(rows, receipt) && Counted(rows, id)
    ensures Counted(PersistRows(rows, receipt), id)
  {
  }

  // A receipt is counted from the moment it is persisted at the current revision.
  lemma PersistedIsCounted(rows: RunRows, receipt: WorkerReceipt)
    requires CanPersist(rows, receipt) && rows.attempts[receipt.attemptId].kind != OwnerSession
    requires rows.attempts[receipt.attemptId].mutationRevision == rows.run.mutationRevision
    ensures Counted(PersistRows(rows, receipt), receipt.attemptId)
    ensures CompleteReceipt(PersistRows(rows, receipt).attempts[receipt.attemptId])
  {
  }

  lemma SettleCounts(rows: RunRows, attemptId: string, stepId: string, verdict: Option<bool>, id: string)
    requires attemptId in rows.attempts && stepId in rows.steps && Counted(rows, id)
    ensures Counted(SettleRows(rows, attemptId, stepId, verdict), id)
  {
  }

  lemma InterruptCounts(rows: RunRows, attemptId: string, id: string)
    requires attemptId in rows.attempts && Counted(rows, id)
    ensures Counted(InterruptRows(rows, attemptId), id) <==> attemptId != id
  {
  }

  lemma FailedTurnCounts(rows: RunRows, attemptId: string, id: string)
    requires attemptId in rows.attempts && Counted(rows, id)
    ensures Counted(FailedTurnRows(rows, attemptId), id) <==> attemptId != id
  {
  }

  lemma OperationCounts(rows: RunRows, stepId: string, op: StepOperation, id: string)
    requires stepId in rows.steps && Counted(rows, id)
    ensures Counted(OperatedRows(rows, stepId, op), id)
  {
  }

  lemma FailStepCounts(rows: RunRows, stepId: string, failed: Option<string>, id: string)
    requires stepId in rows.steps && (failed.Some? ==> failed.value in rows.attempts) && Counted(rows, id)
    ensures Counted(FailStepRows(rows, stepId, failed), id)
  {
  }

  lemma ReplanUncounts(rows: RunRows, replacement: map<string, Step>, resume: bool, id: string)
    requires ReplacementPlan(rows, replacement) && Counted(rows, id)
    ensures !Counted(ReplanRows(rows, replacement, resume), id)
  {
    var st := rows.attempts[id].stepId;
    assert ReplanRows(rows, replacement, resume).steps[st] == Superseding(rows.run, rows.steps[st]);
  }

  lemma ReportCounts(r: string, rows: RunRows, attemptId: string, a: Attempt, state: StepState, id: string)
    requires CanReport(rows, attemptId, a, state) && Counted(rows, id)
    ensures Counted(Reconcile(r, ReportRows(rows, attemptId, a, state)), id)
  {
    ReconcileOnlyLinks(r, ReportRows(rows, attemptId, a, state));
  }

  lemma ObserveCounts(rows: RunRows, identity: string, claim: Option<Claim>, id: string)
    requires Counted(rows, id)
    ensures Counted(ObserveIdentity(rows, identity, claim), id)
            <==> !(rows.run.currentIdentity.Some? && rows.run.currentIdentity != Some(identity))
  {
  }

  lemma SettledAttemptIsStored(s: Store, act: Action)
    requires act.Settle? && Enabled(s, act)
    ensures act.payload.attemptId in s.runs[act.runId].attempts && act.payload.stepId in s.runs[act.runId].steps
    ensures s.runs[act.runId].provenance.Some?
  {
  }

  lemma VerdictCounts(s: Store, act: Action, id: string)
    requires act.Settle? || act.RejectCandidate? || act.OwnerReport?
    requires Enabled(s, act) && Counted(s.runs[act.runId], id)
    ensures Counted(Rewritten(s, act), id)
  {
    var rows := s.runs[act.runId];
    match act
    case Settle(_, _, payload, _, _, _, verdict) =>
      SettledAttemptIsStored(s, act);
      SettleCounts(rows, payload.attemptId, payload.stepId, verdict, id);
    case RejectCandidate(_, _, x, _, _) => FailStepCounts(rows, rows.attempts[x].stepId, Some(x), id);
    case OwnerReport(r, x, a, state) => ReportCounts(r, rows, x, a, state, id);
  }

  lemma EndingCounts(s: Store, act: Action, id: string)
    requires act.Interrupt? || act.RecordFailedTurn? || act.FailStep? || act.OperateStep?
    requires Enabled(s, act) && Counted(s.runs[act.runId], id)
    ensures Counted(Rewritten(s, act), id) <==> !Drops(s, act, act.runId, id)
  {
    var rows := s.runs[act.runId];
    match act
    case Interrupt(_, x) => InterruptCounts(rows, x, id);
    case RecordFailedTurn(_, x) => FailedTurnCounts(rows, x, id);
    case FailStep(_, st, failed) => FailStepCounts(rows, st, failed, id);
    case OperateStep(_, st, op) => OperationCounts(rows, st, op, id);
  }

  lemma PlanCounts(s: Store, act: Action, id: string)
    requires act.Unlock? || act.Dispatch? || act.PersistReceipt? || act.Replan?
    requires Enabled(s, act) && Counted(s.runs[act.runId], id)
    ensures Counted(Rewritten(s, act), id) <==> !Drops(s, act, act.runId, id)
  {
    var rows := s.runs[act.runId];
    match act
    case Unlock(_, st) => UnlockCounts(rows, st, id);
    case Dispatch(_, x, a) => DispatchCounts(rows, x, a, id);
    case PersistReceipt(_, receipt) => PersistCounts(rows, receipt, id);
    case Replan(_, replacement, resume) => ReplanUncounts(rows, replacement, resume, id);
  }

  lemma LedgerCounts(s: Store, act: Action, id: string)
    requires Ledger(act) && Enabled(s, act) && Counted(s.runs[act.runId], id)
    ensures Counted(Rewritten(s, act), id) <==> !Observes(s, act, act.runId) && !Drops(s, act, act.runId, id)
  {
    if act.Settle? || act.RejectCandidate? || act.OwnerReport? {
      VerdictCounts(s, act, id);
    } else if act.ObserveWorkspace? {
      ObserveCounts(s.runs[act.runId], act.identity, act.claim, id);
    } else if act.Interrupt? || act.RecordFailedTurn? || act.FailStep? || act.OperateStep? {
      EndingCounts(s, act, id);
    } else {
      PlanCounts(s, act, id);
    }
  }

  lemma RecordCounts(w: World, act: Action, w': World, r: string, id: string)
    requires act.Record? && Next(w, act, w') && r in w.store.runs && Counted(w.store.runs[r], id)
    ensures r in w'.store.runs && (Counted(w'.store.runs[r], id) <==> !Recorded(w, act, r))
  {
    if Recorded(w, act, r) {
      RecordWrites(w.store, act.host, r, act.snap, act.session, act.token, act.patch);
    } else {
      RecordTouchesItsRun(w, act, w', r);
    }
  }

  // Steps that rewrite nothing of the Run's attempts.
  predicate KeepsAttempts(act: Action, r: string) {
    !Touches(act, r) || act.Block? || act.RunRecovery? || Life(act)
  }

  lemma LivedCounts(rows: RunRows, rows': RunRows, id: string)
    requires LivedRows(rows, rows') && Counted(rows, id)
    ensures Counted(rows', id)
  {
  }

  lemma LifeCounts(w: World, act: Action, w': World, r: string, id: string)
    requires Life(act) && Next(w, act, w') && r in w.store.runs && Counted(w.store.runs[r], id)
    ensures r in w'.store.runs && Counted(w'.store.runs[r], id)
  {
    LifeLives(w.store, act);
    LivedCounts(w.store.runs[r], w'.store.runs[r], id);
  }

  lemma BlockingCounts(w: World, act: Action, w': World, r: string, id: string)
    requires (act.Block? || act.RunRecovery?) && Next(w, act, w') && r in w.store.runs && Counted(w.store.runs[r], id)
    ensures r in w'.store.runs && Counted(w'.store.runs[r], id)
  {
    RecoveryKeepsLedger(w, act, w', r);
  }

  lemma UntouchedCounts(w: World, act: Action, w': World, r: string, id: string)
    requires Next(w, act, w') && r in w.store.runs && Counted(w.store.runs[r], id) && KeepsAttempts(act, r)
    ensures r in w'.store.runs && Counted(w'.store.runs[r], id)
  {
    if act.Block? || act.RunRecovery? {
      BlockingCounts(w, act, w', r, id);
    } else if Life(act) {
      LifeCounts(w, act, w', r, id);
    } else {
      UntouchedRowsStay(w, act, w', r);
    }
  }

  lemma UntouchedLosesNothing(w: World, act: Action, r: string, id: string)
    requires KeepsAttempts(act, r)
    ensures !Moves(w, act, r) && !Drops(w.store, act, r, id)
  {
  }

  lemma LedgerStepCounts(w: World, act: Action, w': World, id: string)
    requires Ledger(act) && Next(w, act, w') && Counted(w.store.runs[act.runId], id)
    ensures (var r := act.runId;
             && r in w'.store.runs
             && (Counted(w'.store.runs[r], id) <==> !Moves(w, act, r) && !Drops(w.store, act, r, id)))
  {
    LedgerCounts(w.store, act, id);
  }

  // Exactly these steps take a receipt out of what recovery counts.
  lemma CountedUnlessLost(w: World, act: Action, w': World, r: string, id: string)
    requires Next(w, act, w') && r in w.store.runs && Counted(w.store.runs[r], id)
    ensures r in w'.store.runs
    ensures Counted(w'.store.runs[r], id) <==> !Moves(w, act, r) && !Drops(w.store, act, r, id)
  {
    if Ledger(act) && act.runId == r {
      LedgerStepCounts(w, act, w', id);
    } else if act.Record? && act.runId == r {
      RecordCounts(w, act, w', r, id);
    } else {
      UntouchedCounts(w, act, w', r, id);
      UntouchedLosesNothing(w, act, r, id);
    }
  }

  lemma CountedIsSeen(runId: string, rows: RunRows, id: string)
    requires Counted(rows, id)
    ensures !NothingPersisted(runId, rows)
  {
    assert Weighed(rows.attempts[id]) && InDoubt(rows, rows.attempts[id].mutationRevision);
  }

  // ---- A Run whose ledger is left alone ----

  // The persisted evidence of a delivery: an owner mutation no direct report
  // explains, or a complete worker receipt at the current revision.
  ghost predicate Marker(rows: RunRows) {
    rows.provenance.Some? && rows.provenance.value.attemptId.None?
  }

  ghost predicate Evidence(rows: RunRows) {
    Marker(rows) || exists id :: id in rows.attempts && Counted(rows, id) && CompleteReceipt(rows.attempts[id])
  }

  // A step with a receipt cannot be claimed again before the mutation is recorded.
  ghost predicate Pinned(rows: RunRows, a: Attempt) {
    a.stepId in rows.steps
    && rows.steps[a.stepId].planRevision == rows.run.planRevision
    && rows.steps[a.stepId].executionWorkspaceId == a.workspaceId
    && rows.steps[a.stepId].state !in {Planned, StepState.Ready, Failed}
  }

  ghost predicate RowsOk(rows: RunRows) {
    && (rows.provenance.Some? ==> rows.provenance.value.attemptId.None?)
    && (forall id :: id in rows.attempts ==> rows.attempts[id].kind != OwnerSession
                                             && rows.attempts[id].status != Interrupted)
    && (forall id :: id in rows.attempts ==>
          (rows.attempts[id].resultCommit.Some? <==> rows.attempts[id].workerReport.Some?))
    && (forall id :: id in rows.attempts && rows.attempts[id].resultCommit.Some? ==>
          Marker(rows) || Pinned(rows, rows.attempts[id]))
  }

  // A Run whose workspace moved away from it has delivery evidence, until it is terminal.
  ghost predicate LiveOk(s: Store, rows: RunRows) {
    rows.run.status != Completed && rows.run.workspaceId.Some?
    && Some(Observe(s, rows.run.workspaceId.value).identity) != rows.run.currentIdentity
    ==> Evidence(rows)
  }

  ghost predicate Guarded(w: World, r: string) {
    r in w.store.runs && RowsOk(w.store.runs[r]) && LiveOk(w.store, w.store.runs[r])
    && forall o :: o in w.tickets && w.tickets[o].runId == r ==> Evidence(w.store.runs[r])
  }

  // A tree written by hand, or by the owner of another Run's delivery.
  predicate ForeignWrite(w: World, act: Action, r: string, workspaceId: string) {
    (act.Edit? && act.workspaceId == workspaceId)
    || (act.Apply? && act.owner in w.tickets && w.tickets[act.owner].workspaceId == workspaceId
        && w.tickets[act.owner].runId != r)
  }

  // Steps that leave the Run's receipts, plan and workspace to its deliveries.
  predicate Undisturbed(w: World, act: Action, r: string, workspaceId: string) {
    !((act.Interrupt? || act.FailStep? || act.RejectCandidate? || act.Replan? || act.OwnerReport? || act.ObserveWorkspace?
       || act.RecordFailedTurn? || act.OperateStep?)
      && act.runId == r)
    && !ForeignWrite(w, act, r, workspaceId)
  }

  lemma EvidenceIsSeen(r: string, rows: RunRows)
    requires RowsOk(rows) && Evidence(rows)
    ensures !NothingPersisted(r, rows)
  {
    if !Marker(rows) {
      var id :| id in rows.attempts && Counted(rows, id) && CompleteReceipt(rows.attempts[id]);
      CountedIsSeen(r, rows, id);
    } else {
      assert Unexplained(r, rows);
    }
  }

  // Evidence survives a rewrite that keeps the counted receipts.
  lemma CountedKeepsEvidence(rows: RunRows, rows': RunRows)
    requires Evidence(rows) && rows'.provenance == rows.provenance
    requires forall id :: id in rows.attempts && Counted(rows, id) && CompleteReceipt(rows.attempts[id])
               ==> id in rows'.attempts && Counted(rows', id) && CompleteReceipt(rows'.attempts[id])
    ensures Evidence(rows')
  {
  }

  lemma UnlockKeepsRows(rows: RunRows, st: string)
    requires RowsOk(rows) && st in rows.steps && rows.steps[st].state == Planned
    ensures (var rows' := UnlockRows(rows, st); RowsOk(rows') && (Evidence(rows) ==> Evidence(rows')))
  {
    if Evidence(rows) { CountedKeepsEvidence(rows, UnlockRows(rows, st)); }
  }

  lemma DispatchKeepsRows(rows: RunRows, id: string, a: Attempt)
    requires RowsOk(rows) && CanDispatch(rows, id, a)
    ensures (var rows' := DispatchRows(rows, id, a); RowsOk(rows') && (Evidence(rows) ==> Evidence(rows')))
  {
    var rows' := DispatchRows(rows, id, a);
    forall x | x in rows'.attempts && rows'.attempts[x].resultCommit.Some?
      ensures Marker(rows') || Pinned(rows', rows'.attempts[x])
    {
      assert x != id && rows'.attempts[x] == rows.attempts[x];
    }
    if Evidence(rows) && !Marker(rows) { CountedKeepsEvidence(rows, rows'); }
  }

  lemma PersistKeepsRows(rows: RunRows, receipt: WorkerReceipt)
    requires RowsOk(rows) && CanPersist(rows, receipt)
    ensures (var rows' := PersistRows(rows, receipt); RowsOk(rows') && (Evidence(rows) ==> Evidence(rows')))
  {
    var rows' := PersistRows(rows, receipt);
    forall id | id in rows'.attempts && rows'.attempts[id].resultCommit.Some?
      ensures Marker(rows') || Pinned(rows', rows'.attempts[id])
    {
      if id != receipt.attemptId { assert rows'.attempts[id] == rows.attempts[id]; }
    }
    if Evidence(rows) && !Marker(rows) { CountedKeepsEvidence(rows, rows'); }
  }

  lemma SettleKeepsRows(rows: RunRows, attemptId: string, stepId: string, verdict: Option<bool>)
    requires RowsOk(rows) && rows.provenance.Some? && attemptId in rows.attempts && stepId in rows.steps
    ensures (var rows' := SettleRows(rows, attemptId, stepId, verdict); RowsOk(rows') && Marker(rows'))
  {
  }

  lemma RecordKeepsRows(rows: RunRows, snap: Snapshot, patch: Patch, delivered: string)
    requires RowsOk(rows)
    ensures RowsOk(RecordedRows(rows, snap, patch, delivered)) && Marker(RecordedRows(rows, snap, patch, delivered))
  {
  }

  // With no direct reports, recovery finds no report to link the mutation to.
  lemma NoReportNoLink(r: string, rows: RunRows)
    requires RowsOk(rows)
    ensures Reconcile(r, rows) == rows
  {
    ReconcileOnlyLinks(r, rows);
  }

  // A rewrite of the Run's rows that keeps its record, its order and its evidence.
  lemma RowsKeepGuard(w: World, w': World, r: string)
    requires Guarded(w, r) && r in w'.store.runs && w'.tickets == w.tickets && w'.store.live == w.store.live
    requires RowsOk(w'.store.runs[r]) && (Evidence(w.store.runs[r]) ==> Evidence(w'.store.runs[r]))
    requires (var run, run' := w.store.runs[r].run, w'.store.runs[r].run;
              run'.workspaceId == run.workspaceId && run'.currentIdentity == run.currentIdentity
              && (run.status == Completed ==> run'.status == Completed))
    ensures Guarded(w', r)
  {
  }

  lemma EvidentKeepsGuard(w': World, r: string)
    requires r in w'.store.runs && RowsOk(w'.store.runs[r]) && Evidence(w'.store.runs[r])
    ensures Guarded(w', r)
  {
  }

  lemma LedgerKeepsGuard(w: World, act: Action, w': World, r: string, ws: string)
    requires Guarded(w, r) && Ledger(act) && act.runId == r && Next(w, act, w') && Undisturbed(w, act, r, ws)
    ensures Guarded(w', r)
  {
    var rows := w.store.runs[r];
    RewrittenRun(w.store, act);
    match act
    case Unlock(_, st) =>
      UnlockKeepsRows(rows, st);
      RowsKeepGuard(w, w', r);
    case Dispatch(_, id, a) =>
      DispatchKeepsRows(rows, id, a);
      RowsKeepGuard(w, w', r);
    case PersistReceipt(_, receipt) =>
      PersistKeepsRows(rows, receipt);
      RowsKeepGuard(w, w', r);
    case Settle(_, _, payload, _, _, _, verdict) =>
      SettledAttemptIsStored(w.store, act);
      SettleKeepsRows(rows, payload.attemptId, payload.stepId, verdict);
      EvidentKeepsGuard(w', r);
  }

  lemma RecordKeepsGuard(w: World, act: Action, w': World, r: string)
    requires Guarded(w, r) && act.Record? && act.runId == r && Next(w, act, w')
    ensures Guarded(w', r)
  {
    if Recorded(w, act, r) {
      RecordWrites(w.store, act.host, r, act.snap, act.session, act.token, act.patch);
      RecordKeepsRows(w.store.runs[r], act.snap, act.patch, Observe(w.store, act.host.workspaceId).identity);
      EvidentKeepsGuard(w', r);
    } else {
      RecordWrites(w.store, act.host, r, act.snap, act.session, act.token, act.patch);
    }
  }

  lemma BlockedRowsOk(rows: RunRows, status: RunStatus)
    requires RowsOk(rows)
    ensures (var rows' := rows.(run := rows.run.(status := status)); RowsOk(rows') && (Evidence(rows) ==> Evidence(rows')))
  {
    var rows' := rows.(run := rows.run.(status := status));
    if Evidence(rows) && !Marker(rows) { CountedKeepsEvidence(rows, rows'); }
  }

  lemma BlockKeepsGuard(w: World, w': World, r: string)
    requires Guarded(w, r) && w' == w.(store := BlockRun(w.store, r))
    ensures Guarded(w', r)
  {
    BlockWrites(w.store, r);
    BlockedRowsOk(w.store.runs[r], BlockedRows(w.store.runs[r]).run.status);
    RowsKeepGuard(w, w', r);
  }

  lemma RecoveryKeepsGuard(w: World, act: Action, w': World, r: string)
    requires Guarded(w, r) && act.RunRecovery? && act.runId == r && Next(w, act, w')
    ensures Guarded(w', r)
  {
    var rows := w.store.runs[r];
    RecoveryWrites(w.store, act.host, r, act.observable);
    NoReportNoLink(r, rows);
    BlockedRowsOk(rows, w'.store.runs[r].run.status);
    RowsKeepGuard(w, w', r);
  }

  // Ending a Run cancels only steps no attempt stands for, so its receipts stay.
  lemma LivedRowsOk(rows: RunRows, rows': RunRows)
    requires RowsOk(rows) && LivedRows(rows, rows')
    ensures RowsOk(rows') && (Evidence(rows) ==> Evidence(rows'))
  {
    forall id | id in rows'.attempts && rows'.attempts[id].resultCommit.Some?
      ensures Marker(rows') || Pinned(rows', rows'.attempts[id])
    {
      if !Marker(rows) { assert Pinned(rows, rows.attempts[id]); }
    }
    if Evidence(rows) && !Marker(rows) { CountedKeepsEvidence(rows, rows'); }
  }

  lemma LifeKeepsGuard(w: World, act: Action, w': World, r: string)
    requires Guarded(w, r) && Life(act) && Next(w, act, w')
    ensures Guarded(w', r)
  {
    LifeLives(w.store, act);
    LivedRowsOk(w.store.runs[r], w'.store.runs[r]);
    RowsKeepGuard(w, w', r);
  }

  // A patch built from complete receipts has evidence while nothing disturbs the Run.
  lemma BuiltFromIsEvidence(rows: RunRows, receipts: set<string>, patch: Patch)
    requires RowsOk(rows) && BuiltFrom(rows, receipts, patch)
    ensures Evidence(rows)
  {
    var id :| id in receipts;
    if !Marker(rows) { assert Pinned(rows, rows.attempts[id]) && Counted(rows, id); }
  }

  lemma ApplyKeepsGuard(w: World, act: Action, w': World, r: string, ws: string)
    requires Guarded(w, r) && act.Apply? && Next(w, act, w') && Undisturbed(w, act, r, ws)
    requires w.store.runs[r].run.workspaceId.Some? ==> w.store.runs[r].run.workspaceId == Some(ws)
    ensures Guarded(w', r)
  {
  }

  lemma UntouchedKeepsGuard(w: World, act: Action, w': World, r: string, ws: string)
    requires Guarded(w, r) && !Touches(act, r) && !act.Apply? && Next(w, act, w')
    requires Undisturbed(w, act, r, ws) && (w.store.runs[r].run.workspaceId.Some? ==> w.store.runs[r].run.workspaceId == Some(ws))
    ensures Guarded(w', r)
  {
    UntouchedRowsStay(w, act, w', r);
    UntouchedTicketsStay(w, act, w', r);
    UntouchedLiveStays(w, act, w', ws);
  }

  lemma UntouchedTicketsStay(w: World, act: Action, w': World, r: string)
    requires Guarded(w, r) && !Touches(act, r) && !act.Apply? && Next(w, act, w')
    ensures forall o :: o in w'.tickets && w'.tickets[o].runId == r ==> Evidence(w.store.runs[r])
  {
    if act.Ready? && act.runId == r { BuiltFromIsEvidence(w.store.runs[r], act.receipts, act.patch); }
  }

  lemma UntouchedLiveStays(w: World, act: Action, w': World, ws: string)
    requires Next(w, act, w') && !(act.Edit? && act.workspaceId == ws) && !act.Apply?
    ensures Observe(w'.store, ws) == Observe(w.store, ws)
  {
    if Life(act) { LifeLives(w.store, act); } else if !Ledger(act) { DeliveryLiveStays(w, act, w', ws); }
  }

  lemma DeliveryLiveStays(w: World, act: Action, w': World, ws: string)
    requires !Ledger(act) && !Life(act) && DeliveryStep(w, act, w') && !(act.Edit? && act.workspaceId == ws) && !act.Apply?
    ensures Observe(w'.store, ws) == Observe(w.store, ws)
  {
    if LockStep(act) {
      LockStepsKeepRows(w, act, w');
    } else if act.Block? {
      BlockWrites(w.store, act.runId);
    } else if act.RunRecovery? {
      RecoveryKeepsLive(w.store, act.host, act.runId, act.observable);
    } else if act.Record? {
      RecordWrites(w.store, act.host, act.runId, act.snap, act.session, act.token, act.patch);
    }
  }

  lemma RecoveryKeepsLive(s: Store, host: Host, r: string, observable: bool)
    ensures Recover(s, host, r, observable).0.live == s.live
  {
    RecoveryWrites(s, host, r, observable);
  }

  lemma StepKeepsGuard(w: World, act: Action, w': World, r: string, ws: string)
    requires Guarded(w, r) && Next(w, act, w') && Undisturbed(w, act, r, ws)
    requires w.store.runs[r].run.workspaceId.Some? ==> w.store.runs[r].run.workspaceId == Some(ws)
    ensures Guarded(w', r)
  {
    if Life(act) {
      LifeKeepsGuard(w, act, w', r);
    } else if !Touches(act, r) {
      if act.Apply? { ApplyKeepsGuard(w, act, w', r, ws); } else { UntouchedKeepsGuard(w, act, w', r, ws); }
    } else if Ledger(act) {
      LedgerKeepsGuard(w, act, w', r, ws);
    } else if act.Record? {
      RecordKeepsGuard(w, act, w', r);
    } else if act.RunRecovery? {
      RecoveryKeepsGuard(w, act, w', r);
    } else {
      BlockKeepsGuard(w, w', r);
    }
  }
}
