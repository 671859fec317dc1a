/**
 Owner Delivery as a labelled step system. Every caller may make any
 control-plane call with any arguments at any time; what survives a crash is
 the store, and what a crash loses is the ticket an owner obtained from the
 ready check. A holder of such a ticket runs `git apply`, which may leave the
 workspace in any state at all, and so may a direct edit. Interruptions, failed
 steps, rejected candidates, new plans, direct reports and plain observations
 happen at any time too, and Runs start, take leases, block, resume and end.
 */
module DeliveryProtocol {
  import opened Prelude
  import opened KernelRows
  import opened WorktreeAuthority
  import opened Delivery
  import opened DeliveryRecovery
  import opened RunLifecycle

  datatype Ticket = Ticket(runId: string, workspaceId: string)

  datatype World = World(store: Store, tickets: map<string, Ticket>)

  datatype Action =
    | Tick
    | Acquire(host: Host, runId: string, snap: Snapshot, recovery: Option<string>, session: string, ttl: nat)
    | Renew(host: Host, runId: string, snap: Snapshot, session: string, token: nat, ttl: nat, phase: Phase)
    | Ready(owner: string, host: Host, runId: string, snap: Snapshot, session: string, token: nat, patch: Patch,
            receipts: set<string>)
    | Apply(owner: string, result: Live)
    | Edit(workspaceId: string, result: Live)
    | Record(host: Host, runId: string, snap: Snapshot, session: string, token: nat, patch: Patch)
    | Release(runId: string, workspaceId: string, session: string, token: nat)
    | Block(runId: string)
    | RunRecovery(host: Host, runId: string, observable: bool)
    | Crash(owner: string)
    // the ledger of one Run
    | Unlock(runId: string, stepId: string)
    | Dispatch(runId: string, attemptId: string, attempt: Attempt)
    | PersistReceipt(runId: string, receipt: WorkerReceipt)
    | Settle(host: Host, runId: string, payload: WorkerPayload, mutation: DeliveryMutation, receipt: WorkerReceipt,
             guarded: bool, verdict: Option<bool>)
    | Interrupt(runId: string, attemptId: string)
    | FailStep(runId: string, stepId: string, failed: Option<string>)
    | RejectCandidate(host: Host, runId: string, attemptId: string, token: nat, candidate: string)
    | Replan(runId: string, replacement: map<string, Step>, resume: bool)
    | OwnerReport(runId: string, attemptId: string, attempt: Attempt, state: StepState)
    | ObserveWorkspace(runId: string, identity: string, claim: Option<Claim>)
    | RecordFailedTurn(runId: string, attemptId: string)
    | OperateStep(runId: string, stepId: string, op: StepOperation)
    // the life of Runs
    | Start(runId: string, rows: RunRows)
    | TakeLease(worktreeId: string, projectId: string, runId: string)
    | GiveLease(worktreeId: string, runId: string)
    | Resume(runId: string)
    | Complete(runId: string)
    | Abandon(runId: string)
    | Sweep(projectId: string)

  // ---- Steps on one Run's rows ----

  predicate Ledger(act: Action) {
    act.Unlock? || act.Dispatch? || act.PersistReceipt? || act.Settle? || act.Interrupt? || act.FailStep?
    || act.RejectCandidate? || act.Replan? || act.OwnerReport? || act.ObserveWorkspace? || act.RecordFailedTurn?
    || act.OperateStep?
  }

  function UnlockRows(rows: RunRows, st: string): RunRows
    requires st in rows.steps
  {
    rows.(steps := rows.steps[st := rows.steps[st].(state := StepState.Ready)])
  }

  // A dispatch claims a ready or failed step and inserts its attempt in one transaction.
  predicate CanDispatch(rows: RunRows, attemptId: string, a: Attempt) {
    rows.run.status == Active && attemptId !in rows.attempts && a.stepId in rows.steps
    && rows.steps[a.stepId].state in {StepState.Ready, Failed}
    && rows.steps[a.stepId].planRevision == rows.run.planRevision
    && a.kind != OwnerSession && a.status == Started
    && a.planRevision == rows.run.planRevision && a.mutationRevision == rows.run.mutationRevision
    && a.resultCommit.None? && a.workerReport.None?
  }

  function DispatchRows(rows: RunRows, attemptId: string, a: Attempt): RunRows
    requires a.stepId in rows.steps
  {
    rows.(attempts := rows.attempts[attemptId := a],
          steps := rows.steps[a.stepId := rows.steps[a.stepId].(state := Running, executionWorkspaceId := a.workspaceId)])
  }

  // A receipt is written once, for the attempt its running step is executing.
  predicate CanPersist(rows: RunRows, r: WorkerReceipt) {
    r.attemptId in rows.attempts
    && (var a := rows.attempts[r.attemptId];
        a.status == Started && a.resultCommit.None? && a.workerReport.None?
        && a.workspaceId == Some(r.workspaceId) && r.changedPaths != {}
        && a.stepId in rows.steps && rows.steps[a.stepId].state == Running
        && rows.steps[a.stepId].planRevision == rows.run.planRevision
        && rows.steps[a.stepId].executionWorkspaceId == a.workspaceId)
  }

  function PersistRows(rows: RunRows, r: WorkerReceipt): RunRows
    requires r.attemptId in rows.attempts
  {
    var a := rows.attempts[r.attemptId];
    rows.(attempts := rows.attempts[r.attemptId := a.(
      resultIdentity := Some(r.resultIdentity), resultCommit := Some(r.resultCommit),
      patchDigest := Some(r.patchDigest), changedPaths := r.changedPaths, workerReport := Some(r.workerReport))])
  }

  predicate WithoutReceipt(a: Attempt) {
    a.resultIdentity.None? && a.resultCommit.None? && a.patchDigest.None? && a.workerReport.None? && a.endIdentity.None?
  }

  // A routed row reported directly keeps its receipt; without one it moves to the Run's revision.
  predicate ReportedDirectly(run: Run, before: Attempt, after: Attempt) {
    && before.kind == Routed
    && (after.status == before.status || after.status in {Reported, Verifying, PassedAttempt, FailedAttempt})
    && (after.mutationRevision == before.mutationRevision
        || (WithoutReceipt(before) && before.mutationRevision <= run.mutationRevision == after.mutationRevision))
    && (before.resultIdentity.Some? ==> after.resultIdentity == before.resultIdentity)
    && (before.endIdentity.Some? ==> after.endIdentity == before.endIdentity)
    && (before.changedPaths != {} ==> after.changedPaths == before.changedPaths)
    && after == before.(status := after.status, mutationRevision := after.mutationRevision, changedPaths := after.changedPaths,
                        resultIdentity := after.resultIdentity, endIdentity := after.endIdentity, finished := after.finished,
                        reportKey := after.reportKey, payloadDigest := after.payloadDigest, checkpoint := after.checkpoint,
                        reportResult := after.reportResult)
  }

  // A direct report writes a row of its own session, or the routed row it names, and
  // moves its step, unless that passed.
  predicate CanReport(rows: RunRows, id: string, a: Attempt, state: StepState) {
    a.stepId in rows.steps && state in {Running, Reporting, Passed, Failed}
    && (if a.kind == OwnerSession then id in rows.attempts ==> rows.attempts[id].kind == OwnerSession
        else id in rows.attempts && ReportedDirectly(rows.run, rows.attempts[id], a))
  }

  function ReportRows(rows: RunRows, id: string, a: Attempt, state: StepState): RunRows
    requires a.stepId in rows.steps
  {
    var step := rows.steps[a.stepId];
    rows.(attempts := rows.attempts[id := a],
          steps := rows.steps[a.stepId := if step.state == Passed then step else step.(state := state)])
  }

  ghost predicate Enabled(s: Store, act: Action)
    requires Ledger(act)
  {
    act.runId in s.runs
    && (var rows := s.runs[act.runId];
        match act
        case Unlock(_, st) => st in rows.steps && rows.steps[st].state == Planned
        case Dispatch(_, id, a) => CanDispatch(rows, id, a)
        case PersistReceipt(_, receipt) => CanPersist(rows, receipt)
        case Settle(host, r, payload, mutation, receipt, guarded, _) =>
          SettlementDecision(s, host, r, payload, mutation, receipt, guarded).None?
        case Interrupt(_, id) => id in rows.attempts && LiveAttempt(rows.attempts[id])
        case FailStep(_, st, failed) =>
          st in rows.steps
          && (match failed
              case None => forall x :: x in rows.attempts ==> rows.attempts[x].stepId != st
              case Some(x) => x in rows.attempts && rows.attempts[x].stepId == st)
        case RejectCandidate(host, r, id, token, candidate) => CandidateRejectable(s, host, r, id, token, candidate)
        case Replan(_, replacement, _) => ReplacementPlan(rows, replacement)
        case OwnerReport(_, id, a, state) => CanReport(rows, id, a, state)
        case ObserveWorkspace(_, _, _) => true
        case RecordFailedTurn(_, id) => id in rows.attempts
        case OperateStep(_, st, _) => st in rows.steps)
  }

  ghost function Rewritten(s: Store, act: Action): RunRows
    requires Ledger(act) && Enabled(s, act)
  {
    var rows := s.runs[act.runId];
    match act
    case Unlock(_, st) => UnlockRows(rows, st)
    case Dispatch(_, id, a) => DispatchRows(rows, id, a)
    case PersistReceipt(_, receipt) => PersistRows(rows, receipt)
    case Settle(_, _, payload, _, _, _, verdict) => SettleRows(rows, payload.attemptId, payload.stepId, verdict)
    case Interrupt(_, id) => InterruptRows(rows, id)
    case FailStep(_, st, failed) => FailStepRows(rows, st, failed)
    case RejectCandidate(_, _, id, _, _) => FailStepRows(rows, rows.attempts[id].stepId, Some(id))
    case Replan(_, replacement, resume) => ReplanRows(rows, replacement, resume)
    case OwnerReport(r, id, a, state) => Reconcile(r, ReportRows(rows, id, a, state))
    case ObserveWorkspace(_, identity, claim) => ObserveIdentity(rows, identity, claim)
    case RecordFailedTurn(_, id) => FailedTurnRows(rows, id)
    case OperateStep(_, st, op) => OperatedRows(rows, st, op)
  }

  // ---- Steps in the life of a Run ----

  predicate Life(act: Action) {
    act.Start? || act.TakeLease? || act.GiveLease? || act.Resume? || act.Complete? || act.Abandon? || act.Sweep?
  }

  // The store after the step; None when it is refused.
  function LifeStore(s: Store, act: Action): Option<Store>
    requires Life(act)
  {
    match act
    case Start(r, rows) => if FreshRun(s, r, rows) then StartRun(s, r, rows) else None
    case TakeLease(worktreeId, projectId, r) => AcquireLease(s, worktreeId, projectId, r)
    case GiveLease(worktreeId, r) => ReleaseLease(s, worktreeId, r)
    case Resume(r) => if r in s.runs then ResumeRun(s, r) else None
    case Complete(r) => if r in s.runs then Some(CompleteRun(s, r)) else None
    case Abandon(r) => if r in s.runs then Some(GiveUpRun(s, r)) else None
    case Sweep(projectId) => Some(ReconcileLifecycle(s, projectId))
  }

  // ---- All steps ----

  // The patch is built from complete receipts of the revision it is applied to.
  ghost predicate BuiltFrom(rows: RunRows, ids: set<string>, patch: Patch) {
    ids != {} && ids <= rows.attempts.Keys
    && (forall id :: id in ids ==> Weighed(rows.attempts[id]) && CompleteReceipt(rows.attempts[id])
                                   && rows.attempts[id].mutationRevision == rows.run.mutationRevision)
    && patch.changedPaths == ReceiptPaths(rows, ids)
  }

  ghost predicate Next(w: World, act: Action, w': World) {
    var s := w.store;
    if Ledger(act) then
      Enabled(s, act) && w' == w.(store := WithRows(s, act.runId, Rewritten(s, act)))
    else if Life(act) then LifeStore(s, act).Some? && w' == w.(store := LifeStore(s, act).value)
    else DeliveryStep(w, act, w')
  }

  // The steps of the owner fence and of the workspaces.
  ghost predicate DeliveryStep(w: World, act: Action, w': World)
    requires !Ledger(act) && !Life(act)
  {
    var s := w.store;
    match act
      case Tick => w' == w.(store := s.(clock := s.clock + 1))
      case Acquire(host, r, snap, recovery, session, ttl) =>
        w' == w.(store := AcquireOwnerFence(s, host, r, snap, recovery, session, ttl).0)
      case Renew(host, r, snap, session, token, ttl, phase) =>
        w' == w.(store := RenewOwnerFence(s, host, r, snap, session, token, ttl, phase).0)
      case Ready(owner, host, r, snap, session, token, patch, receipts) =>
        AssertReady(s, host, r, snap, session, token, patch).None?
        && BuiltFrom(s.runs[r], receipts, patch)
        && w' == w.(tickets := w.tickets[owner := Ticket(r, snap.workspaceId)])
      case Apply(owner, result) =>
        owner in w.tickets
        && w' == w.(store := s.(live := s.live[w.tickets[owner].workspaceId := result]))
      case Edit(workspaceId, result) => w' == w.(store := s.(live := s.live[workspaceId := result]))
      case Record(host, r, snap, session, token, patch) =>
        w' == w.(store := RecordOwnerMutation(s, host, r, snap, session, token, patch).0)
      case Release(r, ws, session, token) =>
        ReleaseLock(s, ws, r, session, token).Ok?
        && w' == w.(store := ReleaseLock(s, ws, r, session, token).value)
      case Block(r) => w' == w.(store := BlockRun(s, r))
      case RunRecovery(host, r, observable) => w' == w.(store := Recover(s, host, r, observable).0)
      case Crash(owner) => w' == w.(tickets := w.tickets - {owner})
  }

  ghost predicate StepAt(ws: seq<World>, acts: seq<Action>, i: nat)
    requires i < |acts| < |ws|
  {
    Next(ws[i], acts[i], ws[i + 1])
  }

  ghost predicate Trace(ws: seq<World>, acts: seq<Action>) {
    |ws| == |acts| + 1 && forall i :: 0 <= i < |acts| ==> StepAt(ws, acts, i)
  }

  // Runs start with nothing delivered and a workspace equal to their record.
  ghost predicate Init(w: World) {
    w.tickets == map[]
    && forall r :: r in w.store.runs ==>
         (var rows := w.store.runs[r];
          Bound(w.store, r, rows.run)
          && rows.provenance.None? && rows.attempts == map[]
          && (rows.run.workspaceId.Some? ==>
                rows.run.currentIdentity == Some(Observe(w.store, rows.run.workspaceId.value).identity)))
  }

  // ---- What every step keeps: who may write where ----

  ghost predicate TicketOk(s: Store, t: Ticket) {
    t.runId in s.runs && s.runs[t.runId].run.workspaceId == Some(t.workspaceId) && t.workspaceId in s.workspaces
  }

  ghost predicate Inv(w: World) {
    LeasesHeld(w.store) && forall o :: o in w.tickets ==> TicketOk(w.store, w.tickets[o])
  }

  predicate SameBinding(run: Run, run': Run) {
    run'.workspaceId == run.workspaceId && run'.worktreeId == run.worktreeId
    && run'.projectId == run.projectId && run'.sourceIdentity == run.sourceIdentity
    && (run.status == Completed ==> run'.status == Completed)
  }

  // Runs stay, where they are bound and, once terminal, terminal.
  ghost predicate SameBindings(s: Store, s': Store) {
    s.runs.Keys <= s'.runs.Keys && s'.workspaces.Keys == s.workspaces.Keys
    && (forall r :: r in s.runs ==> SameBinding(s.runs[r].run, s'.runs[r].run))
    && (forall ws :: ws in s.workspaces ==> s'.workspaces[ws].worktreeId == s.workspaces[ws].worktreeId)
  }

  // Steps outside the life of Runs start, end and lease none.
  ghost predicate SameLife(s: Store, s': Store) {
    SameBindings(s, s') && s'.runs.Keys == s.runs.Keys && s'.leases == s.leases
    && forall r :: r in s.runs ==> (s'.runs[r].run.status == Completed <==> s.runs[r].run.status == Completed)
  }

  lemma SameLifeKeepsLeases(s: Store, s': Store)
    requires LeasesHeld(s) && SameLife(s, s')
    ensures LeasesHeld(s')
  {
    forall r | r in s'.runs ensures Bound(s', r, s'.runs[r].run) {
      assert Bound(s, r, s.runs[r].run) && SameBinding(s.runs[r].run, s'.runs[r].run);
    }
  }

  lemma LifeKeepsLeases(s: Store, act: Action)
    requires LeasesHeld(s) && Life(act) && LifeStore(s, act).Some?
    ensures LeasesHeld(LifeStore(s, act).value)
  {
    match act
    case Start(r, rows) => StartKeepsLeases(s, r, rows);
    case TakeLease(worktreeId, projectId, r) => AcquireKeepsLeases(s, worktreeId, projectId, r);
    case GiveLease(worktreeId, r) => ReleaseKeepsLeases(s, worktreeId, r);
    case Resume(r) => ResumeKeepsLeases(s, r);
    case Complete(r) => CompleteKeepsLeases(s, r);
    case Abandon(r) => AbandonKeepsLeases(s, r);
    case Sweep(projectId) => ReconcileKeepsLeases(s, projectId);
  }

  lemma LifeLives(s: Store, act: Action)
    requires Life(act) && LifeStore(s, act).Some?
    ensures Lived(s, LifeStore(s, act).value)
    ensures forall r :: r in s.runs && (act.Sweep? || act.runId != r) ==> LifeStore(s, act).value.runs[r] == s.runs[r]
  {
    match act
    case Start(r, rows) => StartLives(s, r, rows);
    case TakeLease(worktreeId, projectId, r) => AcquireLives(s, worktreeId, projectId, r);
    case GiveLease(worktreeId, r) => ReleaseLives(s, worktreeId, r);
    case Resume(r) => ResumeLives(s, r);
    case Complete(r) => CompleteLives(s, r);
    case Abandon(r) => AbandonLives(s, r);
    case Sweep(projectId) => ReconcileLives(s, projectId);
  }

  lemma LivedIsBound(s: Store, s': Store)
    requires Lived(s, s')
    ensures SameBindings(s, s')
  {
    forall r | r in s.runs ensures SameBinding(s.runs[r].run, s'.runs[r].run) { assert LivedRows(s.runs[r], s'.runs[r]); }
  }

  // Steps that touch nothing but locks, epochs and the clock.
  ghost predicate SameRows(s: Store, s': Store) {
    s'.runs == s.runs && s'.live == s.live && s'.leases == s.leases
    && s'.workspaces.Keys == s.workspaces.Keys
    && forall ws :: ws in s.workspaces ==> s'.workspaces[ws].worktreeId == s.workspaces[ws].worktreeId
  }

  lemma AcquireLockKeepsRows(s: Store, ws: string, projectId: string, r: string, session: string, ttl: nat)
    ensures (var outcome := AcquireLock(s, ws, projectId, r, session, ttl);
             outcome.LockAcquired? ==> SameRows(s, outcome.store))
  {
  }

  lemma ReleaseKeepsRows(s: Store, ws: string, r: string, session: string, token: nat)
    ensures (var released := ReleaseLock(s, ws, r, session, token); released.Ok? ==> SameRows(s, released.value))
  {
  }

  lemma HandBackKeepsRows(locked: Store, lock: Lock, host: Host, r: string, snap: Snapshot, session: string, phase: Phase)
    ensures SameRows(locked, KeepOrHandBack(locked, lock, host, r, snap, session, phase).0)
  {
    ReleaseKeepsRows(locked, snap.workspaceId, r, session, lock.fencingToken);
  }

  // An acquire leaves the store alone, or takes the lock and keeps or hands it back.
  lemma AcquireTakesOrLeaves(s: Store, host: Host, r: string, snap: Snapshot, recovery: Option<string>, session: string,
                             ttl: nat)
    ensures (var outcome := AcquireLock(s, snap.workspaceId, snap.projectId, r, session, ttl);
             var result := AcquireOwnerFence(s, host, r, snap, recovery, session, ttl);
             (result.0 == s && result.1.Err?)
             || (outcome.LockAcquired?
                 && result == KeepOrHandBack(outcome.store, outcome.lock, host, r, snap, session,
                                             if recovery.Some? then PostCommit else Pre)))
  {
  }

  lemma SameRowsTwice(s: Store, t: Store, u: Store)
    requires SameRows(s, t) && SameRows(t, u)
    ensures SameRows(s, u)
  {
  }

  lemma AcquireKeepsRows(s: Store, host: Host, r: string, snap: Snapshot, recovery: Option<string>, session: string,
                         ttl: nat)
    ensures SameRows(s, AcquireOwnerFence(s, host, r, snap, recovery, session, ttl).0)
  {
    var outcome := AcquireLock(s, snap.workspaceId, snap.projectId, r, session, ttl);
    var phase := if recovery.Some? then PostCommit else Pre;
    AcquireTakesOrLeaves(s, host, r, snap, recovery, session, ttl);
    if outcome.LockAcquired? {
      AcquireLockKeepsRows(s, snap.workspaceId, snap.projectId, r, session, ttl);
      HandBackKeepsRows(outcome.store, outcome.lock, host, r, snap, session, phase);
      SameRowsTwice(s, outcome.store, KeepOrHandBack(outcome.store, outcome.lock, host, r, snap, session, phase).0);
    }
  }

  lemma RenewKeepsRows(s: Store, host: Host, r: string, snap: Snapshot, session: string, token: nat, ttl: nat,
                       phase: Phase)
    ensures SameRows(s, RenewOwnerFence(s, host, r, snap, session, token, ttl, phase).0)
  {
  }

  // Steps that leave every row as it is.
  predicate LockStep(act: Action) {
    act.Tick? || act.Acquire? || act.Renew? || act.Release? || act.Ready? || act.Crash?
  }

  lemma LockStepsKeepRows(w: World, act: Action, w': World)
    requires LockStep(act) && Next(w, act, w')
    ensures SameRows(w.store, w'.store)
  {
    match act
    case Acquire(host, r, snap, recovery, session, ttl) =>
      AcquireKeepsRows(w.store, host, r, snap, recovery, session, ttl);
    case Renew(host, r, snap, session, token, ttl, phase) =>
      RenewKeepsRows(w.store, host, r, snap, session, token, ttl, phase);
    case _ =>
  }

  // What a ledger step does to the Run's own record.
  lemma RewrittenRun(s: Store, act: Action)
    requires Ledger(act) && Enabled(s, act)
    ensures SameBinding(s.runs[act.runId].run, Rewritten(s, act).run)
    ensures !act.ObserveWorkspace? ==>
              Rewritten(s, act).run.mutationRevision == s.runs[act.runId].run.mutationRevision
              && Rewritten(s, act).run.currentIdentity == s.runs[act.runId].run.currentIdentity
    ensures !act.ObserveWorkspace? && !act.Replan? ==> Rewritten(s, act).run == s.runs[act.runId].run
  {
    if act.OwnerReport? {
      ReconcileOnlyLinks(act.runId, ReportRows(s.runs[act.runId], act.attemptId, act.attempt, act.state));
    }
  }

  // A record call writes the one Run it is for, or nothing.
  lemma RecordWrites(s: Store, host: Host, r: string, snap: Snapshot, session: string, token: nat, patch: Patch)
    ensures (var (s', result) := RecordOwnerMutation(s, host, r, snap, session, token, patch);
             if result.Err? then s' == s
             else r in s.runs && s' == WithRows(s, r, RecordedRows(s.runs[r], snap, patch, Observe(s, host.workspaceId).identity)))
  {
  }

  lemma RecordKeepsLife(s: Store, host: Host, r: string, snap: Snapshot, session: string, token: nat, patch: Patch)
    ensures SameLife(s, RecordOwnerMutation(s, host, r, snap, session, token, patch).0)
  {
    RecordWrites(s, host, r, snap, session, token, patch);
  }

  // A store that differs in one Run's rows and in locks.
  ghost predicate OneRunWritten(s: Store, s': Store, r: string, rows: RunRows) {
    r in s.runs && s'.runs == s.runs[r := rows] && s'.workspaces == s.workspaces && s'.leases == s.leases && s'.live == s.live
    && forall ws :: ws in s'.locks ==> ws in s.locks && s'.locks[ws] == s.locks[ws]
  }

  lemma WrittenKeepsLife(s: Store, s': Store, r: string, rows: RunRows)
    requires OneRunWritten(s, s', r, rows) && SameBinding(s.runs[r].run, rows.run)
    requires rows.run.status == Completed <==> s.runs[r].run.status == Completed
    ensures SameLife(s, s')
  {
  }

  function BlockedRows(rows: RunRows): RunRows {
    rows.(run := rows.run.(status := if rows.run.status == Active then Blocked else rows.run.status))
  }

  lemma BlockWrites(s: Store, r: string)
    ensures if r in s.runs then OneRunWritten(s, BlockRun(s, r), r, BlockedRows(s.runs[r])) else BlockRun(s, r) == s
  {
    if r in s.runs && s.runs[r].run.status != Active { assert s.runs[r := BlockedRows(s.runs[r])] == s.runs; }
  }

  lemma BlockKeepsLife(s: Store, r: string)
    ensures SameLife(s, BlockRun(s, r))
  {
    BlockWrites(s, r);
    if r in s.runs { WrittenKeepsLife(s, BlockRun(s, r), r, BlockedRows(s.runs[r])); }
  }

  // What recovery leaves of its Run's rows.
  ghost function AfterRecovery(s: Store, host: Host, r: string, observable: bool): RunRows
    requires r in s.runs
  {
    if s.runs[r].run.status != Active then s.runs[r]
    else RecoveredRows(s.runs[r], Reconcile(r, s.runs[r]).provenance, Recover(s, host, r, observable).1.RecoveryBlocked?)
  }

  lemma RecoveredIsWritten(s: Store, r: string, provenance: Option<Provenance>, blocked: bool)
    requires r in s.runs
    ensures OneRunWritten(s, RecoveredStore(s, r, provenance, blocked), r, RecoveredRows(s.runs[r], provenance, blocked))
  {
  }

  lemma RecoveryWrites(s: Store, host: Host, r: string, observable: bool)
    ensures if r in s.runs then OneRunWritten(s, Recover(s, host, r, observable).0, r, AfterRecovery(s, host, r, observable))
            else Recover(s, host, r, observable).0 == s
  {
    if r in s.runs && s.runs[r].run.status == Active {
      RecoveryTouches(s, host, r, observable);
      RecoveredIsWritten(s, r, Reconcile(r, s.runs[r]).provenance, Recover(s, host, r, observable).1.RecoveryBlocked?);
    } else {
      RecoveryLeavesInactive(s, host, r, observable);
      if r in s.runs { assert s.runs[r := s.runs[r]] == s.runs; }
    }
  }

  lemma RecoveryKeepsLife(s: Store, host: Host, r: string, observable: bool)
    ensures SameLife(s, Recover(s, host, r, observable).0)
  {
    RecoveryWrites(s, host, r, observable);
    if r in s.runs { WrittenKeepsLife(s, Recover(s, host, r, observable).0, r, AfterRecovery(s, host, r, observable)); }
  }

  lemma LedgerKeepsLife(w: World, act: Action, w': World)
    requires Ledger(act) && Next(w, act, w')
    ensures SameLife(w.store, w'.store)
  {
    RewrittenRun(w.store, act);
    WrittenKeepsLife(w.store, w'.store, act.runId, Rewritten(w.store, act));
  }

  lemma SameRowsKeepLife(s: Store, s': Store)
    requires SameRows(s, s')
    ensures SameLife(s, s')
  {
  }

  lemma DeliveryKeepsLife(w: World, act: Action, w': World)
    requires !Ledger(act) && !Life(act) && DeliveryStep(w, act, w')
    ensures SameLife(w.store, w'.store)
  {
    if LockStep(act) {
      LockStepsKeepRows(w, act, w');
      SameRowsKeepLife(w.store, w'.store);
    } else if act.Record? {
      RecordKeepsLife(w.store, act.host, act.runId, act.snap, act.session, act.token, act.patch);
    } else if act.Block? {
      BlockKeepsLife(w.store, act.runId);
    } else if act.RunRecovery? {
      RecoveryKeepsLife(w.store, act.host, act.runId, act.observable);
    }
  }

  lemma StepKeepsLife(w: World, act: Action, w': World)
    requires !Life(act) && Next(w, act, w')
    ensures SameLife(w.store, w'.store)
  {
    if Ledger(act) { LedgerKeepsLife(w, act, w'); } else { DeliveryKeepsLife(w, act, w'); }
  }

  lemma LifeKeepsBindings(w: World, act: Action, w': World)
    requires Life(act) && Next(w, act, w')
    ensures SameBindings(w.store, w'.store)
  {
    LifeLives(w.store, act);
    LivedIsBound(w.store, w'.store);
  }

  lemma StepKeepsBindings(w: World, act: Action, w': World)
    requires Next(w, act, w')
    ensures SameBindings(w.store, w'.store)
  {
    if Life(act) { LifeKeepsBindings(w, act, w'); } else { StepKeepsLife(w, act, w'); }
  }

  // The CAS passes only on the workspace the Run is bound to, by its lease holder.
  lemma CasFacts(s: Store, host: Host, r: string, snap: Snapshot, session: string, token: nat, phase: Phase)
    requires AssertCAS(s, host, r, snap, session, token, phase).None?
    ensures r in s.runs && s.runs[r].run.status == Active
    ensures s.runs[r].run.workspaceId == Some(snap.workspaceId) == Some(host.workspaceId)
    ensures s.runs[r].run.worktreeId == Some(host.worktreeId)
    ensures host.worktreeId in s.leases && s.leases[host.worktreeId].holderRunId == r
    ensures s.runs[r].run.mutationRevision == snap.mutationRevision
    ensures s.runs[r].run.currentIdentity == Some(snap.identity)
    ensures Observe(s, host.workspaceId).head == Some(snap.head)
    ensures HoldsLockRow(s, snap.workspaceId, r, session, token) && Unexpired(s, s.locks[snap.workspaceId])
    ensures phase != Post ==> Observe(s, host.workspaceId).identity == snap.identity
  {
  }

  lemma ReadyTicket(w: World, act: Action, w': World)
    requires act.Ready? && Inv(w) && Next(w, act, w')
    ensures TicketOk(w.store, w'.tickets[act.owner])
    ensures forall o :: o in w'.tickets && o != act.owner ==> o in w.tickets && w'.tickets[o] == w.tickets[o]
  {
    CasFacts(w.store, act.host, act.runId, act.snap, act.session, act.token, Pre);
    assert Bound(w.store, act.runId, w.store.runs[act.runId].run);
  }

  lemma TicketsStay(w: World, w': World)
    requires Inv(w) && SameBindings(w.store, w'.store)
    requires forall o :: o in w'.tickets ==> (o in w.tickets && w'.tickets[o] == w.tickets[o]) || TicketOk(w.store, w'.tickets[o])
    ensures forall o :: o in w'.tickets ==> TicketOk(w'.store, w'.tickets[o])
  {
    forall o | o in w'.tickets ensures TicketOk(w'.store, w'.tickets[o]) {
      assert TicketOk(w.store, w'.tickets[o]) && SameBinding(w.store.runs[w'.tickets[o].runId].run, w'.store.runs[w'.tickets[o].runId].run);
    }
  }

  lemma OnlyReadyIssuesTickets(w: World, act: Action, w': World)
    requires Next(w, act, w') && !act.Ready?
    ensures forall o :: o in w'.tickets ==> o in w.tickets && w'.tickets[o] == w.tickets[o]
  {
  }

  lemma StepKeepsInv(w: World, act: Action, w': World)
    requires Inv(w) && Next(w, act, w')
    ensures Inv(w')
  {
    StepKeepsBindings(w, act, w');
    if act.Ready? { ReadyTicket(w, act, w'); } else { OnlyReadyIssuesTickets(w, act, w'); }
    TicketsStay(w, w');
    StepKeepsLeases(w, act, w');
  }

  lemma StepKeepsLeases(w: World, act: Action, w': World)
    requires LeasesHeld(w.store) && Next(w, act, w')
    ensures LeasesHeld(w'.store)
  {
    if Life(act) {
      LifeKeepsLeases(w.store, act);
    } else {
      StepKeepsLife(w, act, w');
      SameLifeKeepsLeases(w.store, w'.store);
    }
  }

  lemma {:induction false} ReachableInv(ws: seq<World>, acts: seq<Action>, n: nat)
    requires Trace(ws, acts) && Init(ws[0]) && n <= |acts|
    ensures Inv(ws[n])
  {
    if n > 0 {
      ReachableInv(ws, acts, n - 1);
      assert StepAt(ws, acts, n - 1);
      StepKeepsInv(ws[n - 1], acts[n - 1], ws[n]);
    }
  }

  // In every reachable state two Runs that are not terminal and share a worktree are one.
  lemma WorktreeHasOneLiveRun(ws: seq<World>, acts: seq<Action>, n: nat, r: string, r': string)
    requires Trace(ws, acts) && Init(ws[0]) && n <= |acts|
    requires r in ws[n].store.runs && r' in ws[n].store.runs
    requires (var run, run' := ws[n].store.runs[r].run, ws[n].store.runs[r'].run;
              run.status != Completed && run'.status != Completed && run.worktreeId == run'.worktreeId)
    ensures r == r'
  {
    ReachableInv(ws, acts, n);
    assert Bound(ws[n].store, r, ws[n].store.runs[r].run) && Bound(ws[n].store, r', ws[n].store.runs[r'].run);
  }

  // And that one Run is exactly the one whose mutations a session in the worktree is allowed.
  lemma LeaseCheckAllowsTheLiveRun(ws: seq<World>, acts: seq<Action>, n: nat, r: string, host: Host)
    requires Trace(ws, acts) && Init(ws[0]) && n <= |acts|
    requires r in ws[n].store.runs && ws[n].store.runs[r].run.status != Completed
    ensures AssertRunWorktreeMutationAuthority(ws[n].store, r, host).Ok?
            <==> r != "" && host.worktreeId != "" && host.projectId != ""
                 && ws[n].store.runs[r].run.worktreeId == Some(host.worktreeId)
                 && ws[n].store.runs[r].run.projectId == host.projectId
  {
    ReachableInv(ws, acts, n);
    assert Bound(ws[n].store, r, ws[n].store.runs[r].run);
  }

  lemma WorkspaceHasOneLiveRun(w: World, r: string, r': string, ws: string)
    requires Inv(w) && r in w.store.runs && r' in w.store.runs && ws in w.store.workspaces
    requires w.store.runs[r].run.workspaceId == Some(ws) == w.store.runs[r'].run.workspaceId
    requires w.store.runs[r].run.status != Completed && w.store.runs[r'].run.status != Completed
    ensures r == r'
  {
    assert Bound(w.store, r, w.store.runs[r].run) && Bound(w.store, r', w.store.runs[r'].run);
  }

  // ---- What a step does to the rows of one Run ----

  predicate Touches(act: Action, r: string) {
    (Ledger(act) || act.Record? || act.Block? || act.RunRecovery? || (Life(act) && !act.Sweep?)) && act.runId == r
  }

  lemma RecoveryLeavesOthers(s: Store, host: Host, recovered: string, observable: bool, r: string)
    requires r in s.runs && r != recovered
    ensures (var s' := Recover(s, host, recovered, observable).0; r in s'.runs && s'.runs[r] == s.runs[r])
  {
    RecoveryWrites(s, host, recovered, observable);
  }

  lemma BlockLeavesOthers(s: Store, blocked: string, r: string)
    requires r in s.runs && r != blocked
    ensures r in BlockRun(s, blocked).runs && BlockRun(s, blocked).runs[r] == s.runs[r]
  {
    BlockWrites(s, blocked);
  }

  lemma LifeLeavesOthers(w: World, act: Action, w': World, r: string)
    requires Life(act) && Next(w, act, w') && r in w.store.runs && !Touches(act, r)
    ensures r in w'.store.runs && w'.store.runs[r] == w.store.runs[r]
  {
    LifeLives(w.store, act);
  }

  lemma DeliveryLeavesOthers(w: World, act: Action, w': World, r: string)
    requires !Ledger(act) && !Life(act) && Next(w, act, w') && r in w.store.runs && !Touches(act, r)
    ensures r in w'.store.runs && w'.store.runs[r] == w.store.runs[r]
  {
    if LockStep(act) {
      LockStepsKeepRows(w, act, w');
    } else if act.RunRecovery? {
      RecoveryLeavesOthers(w.store, act.host, act.runId, act.observable, r);
    } else if act.Block? {
      BlockLeavesOthers(w.store, act.runId, r);
    } else if act.Record? {
      RecordTouchesItsRun(w, act, w', r);
    }
  }

  lemma UntouchedRowsStay(w: World, act: Action, w': World, r: string)
    requires Next(w, act, w') && r in w.store.runs && !Touches(act, r)
    ensures r in w'.store.runs && w'.store.runs[r] == w.store.runs[r]
  {
    if Life(act) { LifeLeavesOthers(w, act, w', r); } else if !Ledger(act) { DeliveryLeavesOthers(w, act, w', r); }
  }

  // The act is a record call for r that succeeds.
  ghost predicate Recorded(w: World, act: Action, r: string) {
    act.Record? && act.runId == r
    && RecordOwnerMutation(w.store, act.host, r, act.snap, act.session, act.token, act.patch).1.Ok?
  }

  lemma RecordTouchesItsRun(w: World, act: Action, w': World, r: string)
    requires act.Record? && Next(w, act, w') && r in w.store.runs && !Recorded(w, act, r)
    ensures r in w'.store.runs && w'.store.runs[r] == w.store.runs[r]
  {
    RecordWrites(w.store, act.host, act.runId, act.snap, act.session, act.token, act.patch);
  }

  // Blocking and recovery keep attempts, steps and the record of the Run.
  ghost predicate SameLedger(rows: RunRows, rows': RunRows) {
    rows'.attempts == rows.attempts && rows'.steps == rows.steps
    && rows'.run.(status := Active) == rows.run.(status := Active)
  }

  lemma BlockKeepsLedger(s: Store, blocked: string, r: string)
    requires r in s.runs
    ensures r in BlockRun(s, blocked).runs && SameLedger(s.runs[r], BlockRun(s, blocked).runs[r])
  {
    BlockWrites(s, blocked);
  }

  lemma RecoverKeepsLedger(s: Store, host: Host, recovered: string, observable: bool, r: string)
    requires r in s.runs
    ensures (var s' := Recover(s, host, recovered, observable).0; r in s'.runs && SameLedger(s.runs[r], s'.runs[r]))
  {
    RecoveryWrites(s, host, recovered, observable);
  }

  lemma RecoveryKeepsLedger(w: World, act: Action, w': World, r: string)
    requires (act.RunRecovery? || act.Block?) && Next(w, act, w') && r in w.store.runs
    ensures r in w'.store.runs && SameLedger(w.store.runs[r], w'.store.runs[r])
  {
    if act.RunRecovery? {
      RecoverKeepsLedger(w.store, act.host, act.runId, act.observable, r);
    } else {
      BlockKeepsLedger(w.store, act.runId, r);
    }
  }
}
