/** Which answer restart recovery gives besides that nothing is pending, said from lock, receipts and steps. */
module DeliveryAnswers {
  import opened Prelude
  import opened KernelRows
  import opened Delivery
  import opened DeliveryRecovery
  import opened PendingReport

  // The Run itself holds an unexpired lock on its workspace.
  predicate HoldsFence(s: Store, r: string)
    requires r in s.runs
  {
    var run := s.runs[r].run;
    run.workspaceId.Some? && run.workspaceId.value in s.locks
    && s.locks[run.workspaceId.value].holderRunId == r && s.clock < s.locks[run.workspaceId.value].expiresAt
  }

  predicate OnRecordedTree(s: Store, host: Host, r: string)
    requires r in s.runs
  {
    s.runs[r].run.currentIdentity == Some(Observe(s, host.workspaceId).identity)
  }

  // A worker's attempt at the Run's own revision that is not lost.
  predicate Standing(rows: RunRows, id: string) {
    id in rows.attempts && Weighed(rows.attempts[id]) && !Lost(rows, rows.attempts[id])
    && rows.attempts[id].mutationRevision == rows.run.mutationRevision
  }

  ghost predicate AnyStanding(rows: RunRows) {
    exists id :: id in rows.attempts && Standing(rows, id)
  }

  // Another tree than the recorded one, beside a receipt that may have been applied to it.
  ghost predicate ApplyInDoubt(s: Store, host: Host, r: string)
    requires r in s.runs
  {
    !OnRecordedTree(s, host, r) && AnyStanding(s.runs[r])
  }

  // A complete, reconstructing delivery is recorded on this tree and one of its steps is not settled.
  ghost predicate StepsOpen(s: Store, host: Host, r: string)
    requires r in s.runs
  {
    var rows := s.runs[r];
    rows.provenance.Some? && AnyDelivered(rows) && RecordedHere(rows, Observe(s, host.workspaceId).identity)
    && Reconstructs(rows) && !StepsTerminal(rows)
  }

  ghost predicate SoleDelivered(rows: RunRows, id: string) {
    Delivered(rows, id) && forall other :: other in rows.attempts && Delivered(rows, other) ==> other == id
  }

  // Its only receipt is a Host-owned worker's whose report can still be settled.
  ghost predicate ReportLeft(s: Store, r: string)
    requires r in s.runs
  {
    var rows := s.runs[r];
    !Linked(r, rows) && exists id :: id in rows.attempts && SoleDelivered(rows, id) && AwaitsReport(s, r, id)
  }

  lemma StandingIsPending(rows: RunRows)
    ensures RecoveryAttemptsAt(rows, rows.run.mutationRevision) != {} <==> AnyStanding(rows)
  {
    forall id ensures id in RecoveryAttemptsAt(rows, rows.run.mutationRevision) <==> Standing(rows, id) {}
    if id :| id in rows.attempts && Standing(rows, id) {
      assert id in RecoveryAttemptsAt(rows, rows.run.mutationRevision);
    }
  }

  lemma OnlyDelivered(rows: RunRows, id: string)
    requires rows.provenance.Some?
    ensures RecoveryAttemptsAt(rows, rows.run.mutationRevision - 1) == {id} <==> SoleDelivered(rows, id)
  {
    DeliveredIsRelevant(rows);
    var relevant := RecoveryAttemptsAt(rows, rows.run.mutationRevision - 1);
    if SoleDelivered(rows, id) {
      assert forall x :: x in relevant <==> x in {id};
    }
    if relevant == {id} {
      assert id in relevant;
      forall other | other in rows.attempts && Delivered(rows, other) ensures other == id { assert other in relevant; }
    }
  }

  // ---- The receipts of a recorded delivery ----

  ghost predicate ReportLeftAt(s: Store, r: string)
    requires r in s.runs
  {
    exists id :: id in s.runs[r].attempts && SoleDelivered(s.runs[r], id) && AwaitsReport(s, r, id)
  }

  ghost predicate AllWhole(rows: RunRows) {
    forall id :: id in rows.attempts && Delivered(rows, id) ==> Whole(rows.attempts[id])
  }

  lemma WholeIffComplete(rows: RunRows)
    ensures AllWhole(rows) <==>
            forall id :: id in RecoveryAttemptsAt(rows, rows.run.mutationRevision - 1) ==> CompleteReceipt(rows.attempts[id])
  {
    DeliveredIsRelevant(rows);
    forall id | id in RecoveryAttemptsAt(rows, rows.run.mutationRevision - 1)
      ensures Whole(rows.attempts[id]) <==> CompleteReceipt(rows.attempts[id]) {}
  }

  lemma LeftIsCandidate(s: Store, r: string, relevant: set<string>)
    requires r in s.runs && s.runs[r].provenance.Some?
    requires relevant == RecoveryAttemptsAt(s.runs[r], s.runs[r].run.mutationRevision - 1)
    ensures ReportLeftAt(s, r)
            <==> exists id :: id in relevant && relevant == {id} && PendingHostWorkerDelivery(s, r, id)
  {
    forall id ensures relevant == {id} <==> SoleDelivered(s.runs[r], id) { OnlyDelivered(s.runs[r], id); }
    forall id ensures PendingHostWorkerDelivery(s, r, id) <==> AwaitsReport(s, r, id) { AwaitsReportIff(s, r, id); }
  }

  lemma ReceiptsAnswer(s: Store, r: string, relevant: set<string>)
    requires r in s.runs && s.runs[r].provenance.Some?
    requires relevant == RecoveryAttemptsAt(s.runs[r], s.runs[r].run.mutationRevision - 1)
    ensures ReceiptsDecision(s, r, relevant)
            == if !AllWhole(s.runs[r]) then RecoveryBlocked(ReceiptsIncomplete)
               else if !Reconstructs(s.runs[r]) then RecoveryBlocked(PathsDoNotReconstruct)
               else if StepsTerminal(s.runs[r]) then Nothing
               else if HoldsFence(s, r) then InProgress
               else if ReportLeftAt(s, r) then ReportPending
               else RecoveryBlocked(StepsUnsettled)
  {
    WholeIffComplete(s.runs[r]);
    ReconstructsIff(s.runs[r]);
    StepsTerminalIff(s.runs[r]);
    LeftIsCandidate(s, r, relevant);
  }

  // ---- The workspace and then the receipts ----

  // What recovery answers once something of a delivery is persisted and the workspace is observed.
  ghost predicate Answers(s: Store, host: Host, r: string, outcome: RecoverOutcome)
    requires r in s.runs
  {
    var rows := s.runs[r];
    var here := RecordedHere(rows, Observe(s, host.workspaceId).identity);
    match outcome
    case InProgress => HoldsFence(s, r) && (ApplyInDoubt(s, host, r) || StepsOpen(s, host, r))
    case ReportPending => !HoldsFence(s, r) && StepsOpen(s, host, r) && ReportLeftAt(s, r)
    case Nothing => DeliverySettled(rows) && here
    case RecoveryBlocked(ChangedBeforeProvenance) =>
      !OnRecordedTree(s, host, r) && (if AnyStanding(rows) then !HoldsFence(s, r) else rows.provenance.None?)
    case RecoveryBlocked(IdentityDiverged) => !OnRecordedTree(s, host, r) && !AnyStanding(rows) && rows.provenance.Some?
    case RecoveryBlocked(ProvenanceMismatch) => OnRecordedTree(s, host, r) && rows.provenance.Some? && !here
    case RecoveryBlocked(ReceiptsIncomplete) => rows.provenance.Some? && here && !AllWhole(rows)
    case RecoveryBlocked(PathsDoNotReconstruct) =>
      rows.provenance.Some? && here && AnyDelivered(rows) && AllWhole(rows) && !Reconstructs(rows)
    case RecoveryBlocked(StepsUnsettled) => !HoldsFence(s, r) && StepsOpen(s, host, r) && !ReportLeftAt(s, r)
    case _ => false
  }

  lemma WorkspaceAnswers(s: Store, host: Host, r: string, relevant: set<string>, pendingApply: bool)
    requires r in s.runs && (pendingApply <==> AnyStanding(s.runs[r]))
    requires (var rows := s.runs[r];
              relevant == RecoveryAttemptsAt(rows, if rows.provenance.Some? then rows.run.mutationRevision - 1
                                                   else rows.run.mutationRevision))
    ensures Answers(s, host, r, WorkspaceDecision(s, r, Observe(s, host.workspaceId).identity, relevant, pendingApply))
  {
    var rows := s.runs[r];
    DeliveredIsRelevant(rows);
    if rows.provenance.Some? { ReceiptsAnswer(s, r, relevant); }
  }

  lemma OneAnswerOffTheTree(s: Store, host: Host, r: string, outcome: RecoverOutcome)
    requires r in s.runs && Answers(s, host, r, outcome) && !OnRecordedTree(s, host, r)
    ensures outcome == if AnyStanding(s.runs[r]) then (if HoldsFence(s, r) then InProgress else RecoveryBlocked(ChangedBeforeProvenance))
                       else if s.runs[r].provenance.None? then RecoveryBlocked(ChangedBeforeProvenance)
                       else RecoveryBlocked(IdentityDiverged)
  {
  }

  lemma ReceiptFacts(rows: RunRows)
    ensures !AnyDelivered(rows) ==> AllWhole(rows)
    ensures rows.provenance.Some? && Reconstructs(rows) ==> AllWhole(rows)
    ensures DeliverySettled(rows) <==>
            !(rows.provenance.Some? && AnyDelivered(rows)) || (Reconstructs(rows) && StepsTerminal(rows))
  {
  }

  // The fence, whether a report is left and what the receipts amount to, as truth values.
  lemma AnswerOnTheTree(outcome: RecoverOutcome, fence: bool, left: bool, mutation: bool, here: bool, any: bool, whole: bool,
                        rebuilt: bool, terminal: bool)
    requires (!mutation ==> here) && (!any ==> whole) && (rebuilt ==> whole)
    requires match outcome
      case InProgress => fence && mutation && any && here && rebuilt && !terminal
      case ReportPending => !fence && mutation && any && here && rebuilt && !terminal && left
      case Nothing => (mutation && any ==> rebuilt && terminal) && here
      case RecoveryBlocked(ProvenanceMismatch) => mutation && !here
      case RecoveryBlocked(ReceiptsIncomplete) => mutation && here && !whole
      case RecoveryBlocked(PathsDoNotReconstruct) => mutation && here && any && whole && !rebuilt
      case RecoveryBlocked(StepsUnsettled) => !fence && mutation && any && here && rebuilt && !terminal && !left
      case _ => false
    ensures outcome == if !mutation then Nothing else if !here then RecoveryBlocked(ProvenanceMismatch)
                       else if !whole then RecoveryBlocked(ReceiptsIncomplete)
                       else if !any then Nothing else if !rebuilt then RecoveryBlocked(PathsDoNotReconstruct)
                       else if terminal then Nothing else if fence then InProgress
                       else if left then ReportPending else RecoveryBlocked(StepsUnsettled)
  {
  }

  lemma OneAnswerOnTheTree(s: Store, host: Host, r: string, outcome: RecoverOutcome, other: RecoverOutcome)
    requires r in s.runs && Answers(s, host, r, outcome) && Answers(s, host, r, other) && OnRecordedTree(s, host, r)
    ensures outcome == other
  {
    var rows := s.runs[r];
    ReceiptFacts(rows);
    var fence, left, mutation := HoldsFence(s, r), ReportLeftAt(s, r), rows.provenance.Some?;
    var here, any := RecordedHere(rows, Observe(s, host.workspaceId).identity), AnyDelivered(rows);
    var whole, rebuilt, terminal := AllWhole(rows), mutation && Reconstructs(rows), StepsTerminal(rows);
    AnswerOnTheTree(outcome, fence, left, mutation, here, any, whole, rebuilt, terminal);
    AnswerOnTheTree(other, fence, left, mutation, here, any, whole, rebuilt, terminal);
  }

  // No two answers fit one state.
  lemma OneAnswerFits(s: Store, host: Host, r: string, outcome: RecoverOutcome, other: RecoverOutcome)
    requires r in s.runs && Answers(s, host, r, outcome) && Answers(s, host, r, other)
    ensures outcome == other
  {
    if OnRecordedTree(s, host, r) {
      OneAnswerOnTheTree(s, host, r, outcome, other);
    } else {
      OneAnswerOffTheTree(s, host, r, outcome);
      OneAnswerOffTheTree(s, host, r, other);
    }
  }

  // ---- Recovery ----

  lemma LinkKeepsStanding(rows: RunRows, rows': RunRows)
    requires rows' == rows.(provenance := rows'.provenance)
    ensures AnyStanding(rows') <==> AnyStanding(rows)
  {
    forall id ensures Standing(rows', id) <==> Standing(rows, id) {}
  }

  lemma LinkKeepsOpenSteps(s: Store, host: Host, r: string)
    requires r in s.runs
    ensures StepsOpen(WithRows(s, r, Reconcile(r, s.runs[r])), host, r) <==> StepsOpen(s, host, r)
  {
    LinkKeepsReceipts(r, s.runs[r]);
  }

  // Linking the mutation changes nothing the answer depends on, but that a linked one leaves no report.
  lemma LinkKeepsAnswer(s: Store, host: Host, r: string)
    requires r in s.runs
    ensures (var linked := WithRows(s, r, Reconcile(r, s.runs[r]));
             && linked.runs[r].run == s.runs[r].run && (HoldsFence(linked, r) <==> HoldsFence(s, r))
             && (ApplyInDoubt(linked, host, r) <==> ApplyInDoubt(s, host, r))
             && (StepsOpen(linked, host, r) <==> StepsOpen(s, host, r))
             && (AnyStanding(linked.runs[r]) <==> AnyStanding(s.runs[r]))
             && (linked.runs[r].provenance.Some? ==> (ReportLeftAt(linked, r) <==> ReportLeft(s, r))))
  {
    ReconcileOnlyLinks(r, s.runs[r]);
    LinkKeepsStanding(s.runs[r], Reconcile(r, s.runs[r]));
    LinkKeepsOpenSteps(s, host, r);
    if s.runs[r].provenance.Some? { LinkedLeavesNoReport(s, r); }
  }

  lemma LinkedAwaitsNoReport(s: Store, r: string, id: string)
    requires r in s.runs && s.runs[r].provenance.Some? && s.runs[r].provenance.value.attemptId.Some?
    ensures !AwaitsReport(s, r, id)
  {
  }

  lemma LinkedLeavesNoReport(s: Store, r: string)
    requires r in s.runs && s.runs[r].provenance.Some?
    ensures ReportLeftAt(WithRows(s, r, Reconcile(r, s.runs[r])), r) <==> ReportLeft(s, r)
  {
    var rows := s.runs[r];
    var linked := WithRows(s, r, Reconcile(r, rows));
    LinkKeepsReceipts(r, rows);
    MarkerIsUnexplained(r, rows);
    if Linked(r, rows) {
      forall id ensures !AwaitsReport(linked, r, id) { LinkedAwaitsNoReport(linked, r, id); }
    } else {
      assert linked.runs[r] == rows;
      assert linked.runs == s.runs;
    }
  }

  // A decision that is not nothing was made on the observed workspace, or the workspace was not observable.
  lemma DecisionAnswers(s: Store, host: Host, r: string, observable: bool)
    requires r in s.runs
    ensures (var outcome := RecoveryDecision(s, host, r, observable);
             outcome == Nothing || (if observable then Answers(s, host, r, outcome) else outcome == RecoveryBlocked(Unobservable)))
    ensures AnyStanding(s.runs[r]) || StepsOpen(s, host, r) ==>
              (var outcome := RecoveryDecision(s, host, r, observable);
               if observable then Answers(s, host, r, outcome) else outcome == RecoveryBlocked(Unobservable))
  {
    var rows := s.runs[r];
    var relevant := RecoveryAttemptsAt(rows, if rows.provenance.Some? then rows.run.mutationRevision - 1
                                             else rows.run.mutationRevision);
    StandingIsPending(rows);
    DeliveredIsRelevant(rows);
    WorkspaceAnswers(s, host, r, relevant, RecoveryAttemptsAt(rows, rows.run.mutationRevision) != {});
  }

  // Under its own fence a Run is told to wait, exactly for an apply in doubt or a recorded delivery with an
  // open step; without it the open step is the report's to settle, or the Run is blocked.
  lemma InProgressIff(s: Store, host: Host, r: string, observable: bool)
    requires r in s.runs && s.runs[r].run.status == Active
    ensures Recover(s, host, r, observable).1 == InProgress
            <==> observable && HoldsFence(s, r) && (ApplyInDoubt(s, host, r) || StepsOpen(s, host, r))
  {
    var linked := WithRows(s, r, Reconcile(r, s.runs[r]));
    LinkKeepsAnswer(s, host, r);
    DecisionAnswers(linked, host, r, observable);
    InProgressDecided(linked, host, r, observable);
  }

  lemma InProgressDecided(s: Store, host: Host, r: string, observable: bool)
    requires r in s.runs
    ensures RecoveryDecision(s, host, r, observable) == InProgress
            <==> observable && HoldsFence(s, r) && (ApplyInDoubt(s, host, r) || StepsOpen(s, host, r))
  {
    DecisionAnswers(s, host, r, observable);
    if observable && HoldsFence(s, r) && (ApplyInDoubt(s, host, r) || StepsOpen(s, host, r)) {
      OneAnswerFits(s, host, r, RecoveryDecision(s, host, r, observable), InProgress);
    }
  }

  lemma ReportPendingDecided(s: Store, host: Host, r: string, observable: bool)
    requires r in s.runs
    ensures RecoveryDecision(s, host, r, observable) == ReportPending
            <==> observable && !HoldsFence(s, r) && StepsOpen(s, host, r) && ReportLeftAt(s, r)
  {
    DecisionAnswers(s, host, r, observable);
    if observable && !HoldsFence(s, r) && StepsOpen(s, host, r) && ReportLeftAt(s, r) {
      OneAnswerFits(s, host, r, RecoveryDecision(s, host, r, observable), ReportPending);
    }
  }

  lemma ReportPendingIff(s: Store, host: Host, r: string, observable: bool)
    requires r in s.runs && s.runs[r].run.status == Active
    ensures Recover(s, host, r, observable).1 == ReportPending
            <==> observable && !HoldsFence(s, r) && StepsOpen(s, host, r) && ReportLeft(s, r)
  {
    LinkKeepsAnswer(s, host, r);
    ReportPendingDecided(WithRows(s, r, Reconcile(r, s.runs[r])), host, r, observable);
  }

  // Every other answer than these three blocks the Run, and only a blocking answer touches its status.
  lemma EveryOtherAnswerBlocks(s: Store, host: Host, r: string, observable: bool)
    requires r in s.runs && s.runs[r].run.status == Active
    ensures (var (s', outcome) := Recover(s, host, r, observable);
             r in s'.runs
             && (s'.runs[r].run.status == Blocked <==> outcome !in {Nothing, InProgress, ReportPending})
             && s'.runs[r].run.status in {Active, Blocked})
  {
    RecoveryTouches(s, host, r, observable);
    DecisionAnswers(WithRows(s, r, Reconcile(r, s.runs[r])), host, r, observable);
  }

  // The reason given for blocking is true of the rows and the workspace.
  lemma BlockReasonIsTrue(s: Store, host: Host, r: string, observable: bool)
    requires r in s.runs && s.runs[r].run.status == Active && Recover(s, host, r, observable).1.RecoveryBlocked?
    ensures (var rows := s.runs[r];
             match Recover(s, host, r, observable).1.detail
             case Unobservable => !observable
             case ChangedBeforeProvenance =>
               !OnRecordedTree(s, host, r) && (if AnyStanding(rows) then !HoldsFence(s, r) else rows.provenance.None?)
             case IdentityDiverged => !OnRecordedTree(s, host, r) && !AnyStanding(rows) && rows.provenance.Some?
             case ProvenanceMismatch =>
               OnRecordedTree(s, host, r) && !RecordedHere(rows, Observe(s, host.workspaceId).identity)
             case ReceiptsIncomplete => exists id :: id in rows.attempts && Delivered(rows, id) && !Whole(rows.attempts[id])
             case PathsDoNotReconstruct => rows.provenance.Some? && AllWhole(rows) && !Reconstructs(rows)
             case StepsUnsettled => !HoldsFence(s, r) && StepsOpen(s, host, r) && !ReportLeft(s, r))
  {
    var linked := WithRows(s, r, Reconcile(r, s.runs[r]));
    LinkKeepsAnswer(s, host, r);
    LinkKeepsReceipts(r, s.runs[r]);
    DecisionAnswers(linked, host, r, observable);
  }

  // A diverged tree beside a standing receipt: the owner's own apply is waited for, anything else ends blocked.
  lemma ApplyInDoubtAnswer(s: Store, host: Host, r: string, observable: bool)
    requires r in s.runs && s.runs[r].run.status == Active && ApplyInDoubt(s, host, r)
    ensures Recover(s, host, r, observable).1
            == if !observable then RecoveryBlocked(Unobservable)
               else if HoldsFence(s, r) then InProgress else RecoveryBlocked(ChangedBeforeProvenance)
  {
    var linked := WithRows(s, r, Reconcile(r, s.runs[r]));
    LinkKeepsAnswer(s, host, r);
    DecisionAnswers(linked, host, r, observable);
    if observable {
      OneAnswerFits(linked, host, r, RecoveryDecision(linked, host, r, observable),
                    if HoldsFence(s, r) then InProgress else RecoveryBlocked(ChangedBeforeProvenance));
    }
  }
}
