/** A live fence excludes every other Run and session, over whole runs. */
module FenceExclusion {
  import opened Prelude
  import opened KernelRows
  import opened Delivery
  import opened WorkspaceLock
  import DeliveryConditions
  import opened RunLifecycle
  import opened DeliveryProtocol
  import opened DeliverySafety

  // The row is this owner's and unexpired, and the owner's Run is the active Run of the workspace.
  ghost predicate Holds(s: Store, workspaceId: string, r: string, session: string) {
    && r in s.runs && s.runs[r].run.status == Active && s.runs[r].run.workspaceId == Some(workspaceId)
    && workspaceId in s.locks
    && (var lock := s.locks[workspaceId];
        lock.holderRunId == r && lock.sessionToken == session && lock.projectId == s.runs[r].run.projectId
        && s.clock < lock.expiresAt)
  }

  // What ends a hold: the row expires, its owner releases or takes it anew, or its Run is blocked or ends.
  predicate EndsHold(s: Store, act: Action, workspaceId: string, r: string, session: string) {
    (act.Tick? && workspaceId in s.locks && s.locks[workspaceId].expiresAt <= s.clock + 1)
    || (act.Release? && act.workspaceId == workspaceId && act.runId == r && act.session == session)
    || ((act.Acquire? || act.Renew?) && act.snap.workspaceId == workspaceId && act.runId == r && act.session == session)
    || ((act.Block? || act.RunRecovery? || act.Complete? || act.Abandon?) && act.runId == r)
  }

  lemma FenceHolds(w: World, act: Action, w': World)
    requires Next(w, act, w') && Fenced(w, act)
    ensures Holds(w'.store, act.snap.workspaceId, act.runId, act.session)
  {
    var snap := act.snap;
    DeliveryConditions.FenceTakenIff(w.store, act.host, act.runId, snap, act.recovery, act.session, act.ttl);
    AcquireTakesOrLeaves(w.store, act.host, act.runId, snap, act.recovery, act.session, act.ttl);
    var outcome := AcquireLock(w.store, snap.workspaceId, snap.projectId, act.runId, act.session, act.ttl);
    KeptFenceHolds(outcome.store, outcome.lock, act.host, act.runId, snap, act.session,
                   if act.recovery.Some? then PostCommit else Pre);
    LockGoesToOneHolder(w.store, snap.workspaceId, snap.projectId, act.runId, act.session, act.ttl);
  }

  lemma KeptFenceHolds(locked: Store, lock: Lock, host: Host, r: string, snap: Snapshot, session: string, phase: Phase)
    requires KeepOrHandBack(locked, lock, host, r, snap, session, phase).1.Ok?
    ensures KeepOrHandBack(locked, lock, host, r, snap, session, phase).0 == locked
    ensures r in locked.runs && locked.runs[r].run.status == Active
    ensures locked.runs[r].run.workspaceId == Some(snap.workspaceId) && locked.runs[r].run.projectId == snap.projectId
  {
    CasFacts(locked, host, r, snap, session, lock.fencingToken, phase);
  }

  // A held workspace is fenced by nobody else.
  lemma HoldExcludes(w: World, act: Action, workspaceId: string, r: string, session: string)
    requires Holds(w.store, workspaceId, r, session) && Fenced(w, act) && act.snap.workspaceId == workspaceId
    ensures act.runId == r && act.session == session
  {
    AcquireTakesOrLeaves(w.store, act.host, act.runId, act.snap, act.recovery, act.session, act.ttl);
    LockGoesToOneHolder(w.store, workspaceId, act.snap.projectId, act.runId, act.session, act.ttl);
  }

  lemma LockCallsKeepHold(w: World, act: Action, w': World, workspaceId: string, r: string, session: string)
    requires (act.Acquire? || act.Renew? || act.Release?) && Next(w, act, w')
    requires Holds(w.store, workspaceId, r, session) && !EndsHold(w.store, act, workspaceId, r, session)
    ensures Holds(w'.store, workspaceId, r, session)
  {
    if act.Acquire? { OtherAcquireKeepsHold(w, act, w', workspaceId, r, session); }
  }

  lemma OtherAcquireKeepsHold(w: World, act: Action, w': World, workspaceId: string, r: string, session: string)
    requires act.Acquire? && Next(w, act, w')
    requires Holds(w.store, workspaceId, r, session) && !EndsHold(w.store, act, workspaceId, r, session)
    ensures Holds(w'.store, workspaceId, r, session)
  {
    var snap := act.snap;
    AcquireTakesOrLeaves(w.store, act.host, act.runId, snap, act.recovery, act.session, act.ttl);
    LockGoesToOneHolder(w.store, snap.workspaceId, snap.projectId, act.runId, act.session, act.ttl);
    var outcome := AcquireLock(w.store, snap.workspaceId, snap.projectId, act.runId, act.session, act.ttl);
    if outcome.LockAcquired? {
      HandBackKeepsOthers(outcome.store, outcome.lock, act.host, act.runId, snap, act.session,
                          if act.recovery.Some? then PostCommit else Pre, workspaceId);
    }
  }

  lemma HandBackKeepsOthers(locked: Store, lock: Lock, host: Host, r: string, snap: Snapshot, session: string, phase: Phase,
                            other: string)
    requires other != snap.workspaceId && other in locked.locks
    ensures (var s' := KeepOrHandBack(locked, lock, host, r, snap, session, phase).0;
             s'.runs == locked.runs && s'.clock == locked.clock && other in s'.locks && s'.locks[other] == locked.locks[other])
  {
  }

  // The active Run stays where it is, and its row is no stale one.
  lemma LedgerKeepsHold(w: World, act: Action, w': World, workspaceId: string, r: string, session: string)
    requires Ledger(act) && Next(w, act, w') && Holds(w.store, workspaceId, r, session)
    ensures Holds(w'.store, workspaceId, r, session)
  {
    if act.runId == r { RewrittenRun(w.store, act); }
  }

  lemma DeliveryKeepsHold(w: World, act: Action, w': World, workspaceId: string, r: string, session: string)
    requires !Ledger(act) && !Life(act) && DeliveryStep(w, act, w') && !act.Acquire? && !act.Renew? && !act.Release?
    requires Holds(w.store, workspaceId, r, session) && !EndsHold(w.store, act, workspaceId, r, session)
    ensures Holds(w'.store, workspaceId, r, session)
  {
    if act.Block? {
      BlockLeavesOthers(w.store, act.runId, r);
    } else if act.RunRecovery? {
      RecoveryKeepsHold(w.store, act.host, act.runId, act.observable, workspaceId, r, session);
    } else if act.Record? {
      RecordWrites(w.store, act.host, act.runId, act.snap, act.session, act.token, act.patch);
    }
  }

  lemma LifeKeepsHold(s: Store, act: Action, workspaceId: string, r: string, session: string)
    requires Life(act) && LifeStore(s, act).Some?
    requires Holds(s, workspaceId, r, session) && !EndsHold(s, act, workspaceId, r, session)
    ensures Holds(LifeStore(s, act).value, workspaceId, r, session)
  {
  }

  lemma RecoveryKeepsHold(s: Store, host: Host, recovered: string, observable: bool, workspaceId: string, r: string,
                          session: string)
    requires Holds(s, workspaceId, r, session) && recovered != r
    ensures Holds(Recover(s, host, recovered, observable).0, workspaceId, r, session)
  {
  }

  lemma StepKeepsHold(w: World, act: Action, w': World, workspaceId: string, r: string, session: string)
    requires Next(w, act, w') && Holds(w.store, workspaceId, r, session)
    requires !EndsHold(w.store, act, workspaceId, r, session)
    ensures Holds(w'.store, workspaceId, r, session)
  {
    if Ledger(act) {
      LedgerKeepsHold(w, act, w', workspaceId, r, session);
    } else if Life(act) {
      LifeKeepsHold(w.store, act, workspaceId, r, session);
    } else if act.Acquire? || act.Renew? || act.Release? {
      LockCallsKeepHold(w, act, w', workspaceId, r, session);
    } else {
      DeliveryKeepsHold(w, act, w', workspaceId, r, session);
    }
  }

  lemma {:induction false} HoldsUntilEnded(ws: seq<World>, acts: seq<Action>, m: nat, n: nat, workspaceId: string,
                                           r: string, session: string)
    requires Trace(ws, acts) && m <= n <= |acts| && Holds(ws[m].store, workspaceId, r, session)
    requires forall k :: m <= k < n ==> !EndsHold(ws[k].store, acts[k], workspaceId, r, session)
    ensures Holds(ws[n].store, workspaceId, r, session)
  {
    if m < n {
      HoldsUntilEnded(ws, acts, m, n - 1, workspaceId, r, session);
      assert StepAt(ws, acts, n - 1);
      StepKeepsHold(ws[n - 1], acts[n - 1], ws[n], workspaceId, r, session);
    }
  }

  // After a fence, no other Run and no other session is fenced on the workspace
  // before the owner's hold has ended.
  lemma FenceExcludesOthers(ws: seq<World>, acts: seq<Action>, i: nat, j: nat)
    requires Trace(ws, acts) && i < j < |acts| && Fenced(ws[i], acts[i])
    requires Fenced(ws[j], acts[j]) && acts[j].snap.workspaceId == acts[i].snap.workspaceId
    requires (acts[j].runId, acts[j].session) != (acts[i].runId, acts[i].session)
    ensures exists k :: i < k < j
                        && EndsHold(ws[k].store, acts[k], acts[i].snap.workspaceId, acts[i].runId, acts[i].session)
  {
    var workspaceId, r, session := acts[i].snap.workspaceId, acts[i].runId, acts[i].session;
    assert StepAt(ws, acts, i);
    FenceHolds(ws[i], acts[i], ws[i + 1]);
    if forall k :: i < k < j ==> !EndsHold(ws[k].store, acts[k], workspaceId, r, session) {
      HoldsUntilEnded(ws, acts, i + 1, j, workspaceId, r, session);
      HoldExcludes(ws[j], acts[j], workspaceId, r, session);
    }
  }
}
