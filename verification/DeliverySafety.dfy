/** What every run of the delivery protocol guarantees. */
module DeliverySafety {
  import opened Prelude
  import opened KernelRows
  import opened Delivery
  import opened DeliveryRecovery
  import opened DeliveryAnswers
  import opened RunLifecycle
  import opened DeliveryProtocol
  import opened DeliveryEvidence

  // ---- Crash safety of restart recovery ----

  ghost predicate OnOwnWorkspace(s: Store, host: Host, r: string) {
    r in s.runs && s.runs[r].run.status == Active && s.runs[r].run.workspaceId == Some(host.workspaceId)
  }

  // The Run's workspace is not the tree its record names.
  ghost predicate Diverged(s: Store, r: string, workspaceId: string) {
    && r in s.runs && s.runs[r].run.workspaceId == Some(workspaceId)
    && Some(Observe(s, workspaceId).identity) != s.runs[r].run.currentIdentity
  }

  lemma StartedIsGuarded(w: World, act: Action, w': World, r: string)
    requires Inv(w) && Next(w, act, w') && r !in w.store.runs && r in w'.store.runs
    ensures Guarded(w', r) && w'.store.runs[r].run.workspaceId.Some?
  {
    OnlyStartAdds(w, act, w', r);
    FreshIsGuarded(w, act, w');
  }

  lemma OnlyStartAdds(w: World, act: Action, w': World, r: string)
    requires Next(w, act, w') && r !in w.store.runs && r in w'.store.runs
    ensures act.Start? && act.runId == r
  {
    if Life(act) { LifeAddsTheStarted(w.store, act, r); } else { StepKeepsLife(w, act, w'); }
  }

  lemma LifeAddsTheStarted(s: Store, act: Action, r: string)
    requires Life(act) && LifeStore(s, act).Some? && r !in s.runs && r in LifeStore(s, act).value.runs
    ensures act.Start? && act.runId == r
  {
  }

  lemma FreshIsGuarded(w: World, act: Action, w': World)
    requires Inv(w) && act.Start? && Next(w, act, w')
    ensures Guarded(w', act.runId) && w'.store.runs[act.runId].run.workspaceId.Some?
  {
    forall o | o in w'.tickets ensures w'.tickets[o].runId != act.runId { assert TicketOk(w.store, w.tickets[o]); }
  }

  lemma GuardedAtFirst(w: World, r: string)
    requires Init(w) && r in w.store.runs
    ensures Guarded(w, r)
  {
  }

  ghost predicate LeftAlone(ws: seq<World>, acts: seq<Action>, k: nat, r: string, workspaceId: string)
    requires k < |acts| < |ws|
  {
    Undisturbed(ws[k], acts[k], r, workspaceId)
  }

  // From its start on, whether it was there at first or began in the run.
  lemma {:induction false} GuardedUntil(ws: seq<World>, acts: seq<Action>, n: nat, r: string, workspaceId: string)
    requires Trace(ws, acts) && Init(ws[0]) && n <= |acts|
    requires r in ws[n].store.runs && ws[n].store.runs[r].run.workspaceId == Some(workspaceId)
    requires forall k :: 0 <= k < n ==> LeftAlone(ws, acts, k, r, workspaceId)
    ensures Guarded(ws[n], r)
  {
    if n == 0 {
      GuardedAtFirst(ws[0], r);
    } else {
      assert StepAt(ws, acts, n - 1) && LeftAlone(ws, acts, n - 1, r, workspaceId);
      if r in ws[n - 1].store.runs {
        StepKeepsBindings(ws[n - 1], acts[n - 1], ws[n]);
        GuardedUntil(ws, acts, n - 1, r, workspaceId);
        StepKeepsGuard(ws[n - 1], acts[n - 1], ws[n], r, workspaceId);
      } else {
        ReachableInv(ws, acts, n - 1);
        StartedIsGuarded(ws[n - 1], acts[n - 1], ws[n], r);
      }
    }
  }

  // While only its own deliveries write a Run's workspace and its ledger is left to them,
  // recovery waves the Run through only if nothing is half-delivered.
  lemma RecoveryIsSafe(ws: seq<World>, acts: seq<Action>, n: nat, host: Host, r: string, observable: bool)
    requires Trace(ws, acts) && Init(ws[0]) && n <= |acts| && OnOwnWorkspace(ws[n].store, host, r)
    requires forall k :: 0 <= k < n ==> LeftAlone(ws, acts, k, r, host.workspaceId)
    requires Recover(ws[n].store, host, r, observable).1 == Nothing
    ensures Some(Observe(ws[n].store, host.workspaceId).identity) == ws[n].store.runs[r].run.currentIdentity
    ensures DeliverySettled(ws[n].store.runs[r])
  {
    GuardedUntil(ws, acts, n, r, host.workspaceId);
    GuardedNothingMeansSettled(ws[n], host, r, observable);
  }

  // An apply is foreign only with the ticket of a Run that has ended since.
  lemma ForeignApplyIsStale(ws: seq<World>, acts: seq<Action>, n: nat, r: string, workspaceId: string)
    requires Trace(ws, acts) && Init(ws[0]) && n < |acts| && acts[n].Apply?
    requires r in ws[n].store.runs && ws[n].store.runs[r].run.workspaceId == Some(workspaceId)
    requires ws[n].store.runs[r].run.status != Completed && ForeignWrite(ws[n], acts[n], r, workspaceId)
    ensures (var t := ws[n].tickets[acts[n].owner].runId;
             t in ws[n].store.runs && ws[n].store.runs[t].run.status == Completed)
  {
    ReachableInv(ws, acts, n);
    var t := ws[n].tickets[acts[n].owner];
    assert TicketOk(ws[n].store, t);
    if ws[n].store.runs[t.runId].run.status != Completed {
      WorkspaceHasOneLiveRun(ws[n], t.runId, r, workspaceId);
    }
  }

  lemma GuardedNothingMeansSettled(w: World, host: Host, r: string, observable: bool)
    requires OnOwnWorkspace(w.store, host, r) && Guarded(w, r)
    requires Recover(w.store, host, r, observable).1 == Nothing
    ensures Some(Observe(w.store, host.workspaceId).identity) == w.store.runs[r].run.currentIdentity
    ensures DeliverySettled(w.store.runs[r])
  {
    NothingIff(w.store, host, r, observable);
    var rows := w.store.runs[r];
    if Evidence(rows) { EvidenceIsSeen(r, rows); }
    if NothingPersisted(r, rows) { NothingPersistedIff(r, rows); }
  }

  // In any state at all, a Run that is waved through is settled or on another tree
  // with nothing persisted of a delivery.
  lemma NothingMeansSettledOrNothingPersisted(s: Store, host: Host, r: string, observable: bool)
    requires OnOwnWorkspace(s, host, r) && Recover(s, host, r, observable).1 == Nothing
    ensures DeliverySettled(s.runs[r])
    ensures Diverged(s, r, host.workspaceId) ==> NothingPersisted(r, s.runs[r])
  {
    NothingIff(s, host, r, observable);
    if NothingPersisted(r, s.runs[r]) { NothingPersistedIff(r, s.runs[r]); }
  }

  // Recovery raises no false alarm: a recorded delivery whose receipts are
  // complete, reconstruct the mutation and are settled is waved through.
  lemma SettledDeliveryResumes(s: Store, host: Host, r: string)
    requires OnOwnWorkspace(s, host, r) && DeliverySettled(s.runs[r])
    requires RecordedHere(s.runs[r], Observe(s, host.workspaceId).identity)
    ensures Recover(s, host, r, true).1 == Nothing
  {
    NothingIff(s, host, r, true);
  }

  // ---- What hides a delivery ----

  ghost predicate LostAt(ws: seq<World>, acts: seq<Action>, k: nat, r: string, id: string)
    requires k < |acts| < |ws|
  {
    Moves(ws[k], acts[k], r) || Drops(ws[k].store, acts[k], r, id)
  }

  lemma {:induction false} CountedUntilLost(ws: seq<World>, acts: seq<Action>, m: nat, n: nat, r: string, id: string)
    requires Trace(ws, acts) && m <= n <= |acts|
    requires r in ws[m].store.runs && Counted(ws[m].store.runs[r], id)
    requires forall k :: m <= k < n ==> !LostAt(ws, acts, k, r, id)
    ensures r in ws[n].store.runs && Counted(ws[n].store.runs[r], id)
  {
    if m < n {
      CountedUntilLost(ws, acts, m, n - 1, r, id);
      assert StepAt(ws, acts, n - 1);
      assert !LostAt(ws, acts, n - 1, r, id);
      CountedUnlessLost(ws[n - 1], acts[n - 1], ws[n], r, id);
    }
  }

  // Whatever happens and whoever writes the tree: a diverged Run with a counted
  // receipt is waved through later only if that receipt was interrupted, planned
  // away or given away in between, or the revision moved.
  lemma ResumedOnlyIfLost(ws: seq<World>, acts: seq<Action>, m: nat, n: nat, host: Host, r: string, observable: bool,
                          id: string)
    requires Trace(ws, acts) && m <= n <= |acts|
    requires r in ws[m].store.runs && Counted(ws[m].store.runs[r], id)
    requires OnOwnWorkspace(ws[n].store, host, r) && Diverged(ws[n].store, r, host.workspaceId)
    requires Recover(ws[n].store, host, r, observable).1 == Nothing
    ensures exists k :: m <= k < n && LostAt(ws, acts, k, r, id)
  {
    if forall k :: m <= k < n ==> !LostAt(ws, acts, k, r, id) {
      CountedUntilLost(ws, acts, m, n, r, id);
      MissedIff(ws[n].store, host, r, observable);
      CountedIsSeen(r, ws[n].store.runs[r], id);
    }
  }

  ghost predicate Writes(w: World, act: Action, workspaceId: string) {
    (act.Apply? && act.owner in w.tickets && w.tickets[act.owner].workspaceId == workspaceId)
    || (act.Edit? && act.workspaceId == workspaceId)
  }

  lemma LiveOnlyByWrites(w: World, act: Action, w': World, workspaceId: string)
    requires Next(w, act, w') && !Writes(w, act, workspaceId)
    ensures Observe(w'.store, workspaceId) == Observe(w.store, workspaceId)
  {
    if !act.Apply? { UntouchedLiveStays(w, act, w', workspaceId); }
  }

  // A first observation is none: it names the identity of a Run that had none.
  lemma SameRunUnlessMoved(w: World, act: Action, w': World, r: string)
    requires Next(w, act, w') && r in w.store.runs && !Moves(w, act, r)
    ensures r in w'.store.runs
    ensures w'.store.runs[r].run.mutationRevision == w.store.runs[r].run.mutationRevision
    ensures w.store.runs[r].run.currentIdentity.Some? ==>
              w'.store.runs[r].run.currentIdentity == w.store.runs[r].run.currentIdentity
  {
    if !Touches(act, r) {
      UntouchedRowsStay(w, act, w', r);
    } else if Ledger(act) {
      RewrittenRun(w.store, act);
    } else if act.Record? {
      RecordTouchesItsRun(w, act, w', r);
    } else if Life(act) {
      LifeLives(w.store, act);
    } else {
      RecoveryKeepsLedger(w, act, w', r);
    }
  }

  ghost predicate QuietAt(ws: seq<World>, acts: seq<Action>, k: nat, r: string, workspaceId: string)
    requires k < |acts| < |ws|
  {
    !Moves(ws[k], acts[k], r) && !Writes(ws[k], acts[k], workspaceId)
  }

  lemma {:induction false} QuietStaysDiverged(ws: seq<World>, acts: seq<Action>, m: nat, n: nat, r: string, workspaceId: string)
    requires Trace(ws, acts) && m <= n <= |acts| && Diverged(ws[m].store, r, workspaceId)
    requires ws[m].store.runs[r].run.currentIdentity.Some?
    requires forall k :: m <= k < n ==> QuietAt(ws, acts, k, r, workspaceId)
    ensures Diverged(ws[n].store, r, workspaceId) && ws[n].store.runs[r].run.currentIdentity.Some?
  {
    if m < n {
      QuietStaysDiverged(ws, acts, m, n - 1, r, workspaceId);
      assert StepAt(ws, acts, n - 1) && QuietAt(ws, acts, n - 1, r, workspaceId);
      SameRunUnlessMoved(ws[n - 1], acts[n - 1], ws[n], r);
      LiveOnlyByWrites(ws[n - 1], acts[n - 1], ws[n], workspaceId);
      StepKeepsBindings(ws[n - 1], acts[n - 1], ws[n]);
    }
  }

  lemma AppliedAt(ws: seq<World>, acts: seq<Action>, i: nat, r: string, workspaceId: string)
    requires Trace(ws, acts) && Init(ws[0]) && i < |acts| && acts[i].Apply? && acts[i].owner in ws[i].tickets
    requires ws[i].tickets[acts[i].owner] == Ticket(r, workspaceId) && r in ws[i].store.runs
    requires Some(acts[i].result.identity) != ws[i].store.runs[r].run.currentIdentity
    ensures Diverged(ws[i + 1].store, r, workspaceId)
    ensures ws[i + 1].store.runs[r].run.currentIdentity == ws[i].store.runs[r].run.currentIdentity
  {
    ReachableInv(ws, acts, i);
    assert StepAt(ws, acts, i);
    assert TicketOk(ws[i].store, ws[i].tickets[acts[i].owner]);
  }

  lemma PersistedAt(ws: seq<World>, acts: seq<Action>, p: nat, r: string)
    requires Trace(ws, acts) && p < |acts| && acts[p].PersistReceipt? && acts[p].runId == r
    requires Current(ws[p].store, r, acts[p].receipt.attemptId)
    ensures r in ws[p + 1].store.runs && Counted(ws[p + 1].store.runs[r], acts[p].receipt.attemptId)
  {
    assert StepAt(ws, acts, p);
    PersistedIsCounted(ws[p].store.runs[r], acts[p].receipt);
  }

  ghost predicate Current(s: Store, r: string, id: string) {
    r in s.runs && id in s.runs[r].attempts && s.runs[r].attempts[id].kind != OwnerSession
    && s.runs[r].attempts[id].mutationRevision == s.runs[r].run.mutationRevision
  }

  // What recovery answers on a tree that may carry an unrecorded apply.
  function InDoubtAnswer(s: Store, r: string, observable: bool): RecoverOutcome
    requires r in s.runs
  {
    if !observable then RecoveryBlocked(Unobservable)
    else if HoldsFence(s, r) then InProgress else RecoveryBlocked(ChangedBeforeProvenance)
  }

  // A diverged Run with a counted receipt waits under its own fence, and is blocked without one.
  lemma CountedIsAnswered(s: Store, host: Host, r: string, observable: bool, id: string)
    requires OnOwnWorkspace(s, host, r) && Diverged(s, r, host.workspaceId) && Counted(s.runs[r], id)
    ensures (var (s', outcome) := Recover(s, host, r, observable);
             outcome == InDoubtAnswer(s, r, observable)
             && r in s'.runs && (s'.runs[r].run.status == Blocked <==> !(observable && HoldsFence(s, r))))
  {
    assert Standing(s.runs[r], id);
    ApplyInDoubtAnswer(s, host, r, observable);
    EveryOtherAnswerBlocks(s, host, r, observable);
  }

  // A receipt persisted, its patch applied, and not recorded: whatever else happens meanwhile, recovery
  // of the active Run answers to wait while the Run's own fence lasts, and blocks it from then on.
  lemma UnrecordedApplyIsNeverResumed(ws: seq<World>, acts: seq<Action>, p: nat, i: nat, n: nat, host: Host,
                                      r: string, observable: bool)
    requires Trace(ws, acts) && Init(ws[0]) && p < i < n <= |acts|
    requires acts[p].PersistReceipt? && acts[p].runId == r && Current(ws[p].store, r, acts[p].receipt.attemptId)
    requires acts[i].Apply? && acts[i].owner in ws[i].tickets
    requires ws[i].tickets[acts[i].owner] == Ticket(r, host.workspaceId) && r in ws[i].store.runs
    requires ws[i].store.runs[r].run.currentIdentity.Some?
             && ws[i].store.runs[r].run.currentIdentity.value != acts[i].result.identity
    requires forall k :: i < k < n ==> QuietAt(ws, acts, k, r, host.workspaceId)
    requires forall k :: p < k < n ==> !LostAt(ws, acts, k, r, acts[p].receipt.attemptId)
    requires r in ws[n].store.runs && ws[n].store.runs[r].run.status == Active
    ensures (var (s', outcome) := Recover(ws[n].store, host, r, observable);
             outcome == InDoubtAnswer(ws[n].store, r, observable)
             && r in s'.runs && (s'.runs[r].run.status == Blocked <==> !(observable && HoldsFence(ws[n].store, r))))
  {
    PersistedAt(ws, acts, p, r);
    AppliedAt(ws, acts, i, r, host.workspaceId);
    QuietStaysDiverged(ws, acts, i + 1, n, r, host.workspaceId);
    CountedUntilLost(ws, acts, p + 1, n, r, acts[p].receipt.attemptId);
    CountedIsAnswered(ws[n].store, host, r, observable, acts[p].receipt.attemptId);
  }

  ghost predicate NoFenceAt(ws: seq<World>, acts: seq<Action>, k: nat, workspaceId: string)
    requires k < |acts| < |ws|
  {
    !((acts[k].Acquire? || acts[k].Renew?) && acts[k].snap.workspaceId == workspaceId)
  }

  lemma OnlyFencesAddLocks(w: World, act: Action, w': World, workspaceId: string)
    requires Next(w, act, w')
    requires !((act.Acquire? || act.Renew?) && act.snap.workspaceId == workspaceId)
    requires workspaceId in w'.store.locks
    ensures workspaceId in w.store.locks && w'.store.locks[workspaceId] == w.store.locks[workspaceId]
  {
    if act.Acquire? {
      AcquireTakesOrLeaves(w.store, act.host, act.runId, act.snap, act.recovery, act.session, act.ttl);
    } else if !act.Renew? && !act.Release? {
      OtherStepsOnlyDropLocks(w, act, w');
    }
  }

  lemma ClockAt(w: World, act: Action, w': World)
    requires Next(w, act, w')
    ensures w.store.clock <= w'.store.clock
  {
    if act.Acquire? {
      AcquireTakesOrLeaves(w.store, act.host, act.runId, act.snap, act.recovery, act.session, act.ttl);
    }
  }

  lemma {:induction false} LockAges(ws: seq<World>, acts: seq<Action>, m: nat, n: nat, workspaceId: string)
    requires Trace(ws, acts) && m <= n <= |acts| && workspaceId in ws[n].store.locks
    requires forall k :: m <= k < n ==> NoFenceAt(ws, acts, k, workspaceId)
    ensures workspaceId in ws[m].store.locks && ws[n].store.locks[workspaceId] == ws[m].store.locks[workspaceId]
    ensures ws[m].store.clock <= ws[n].store.clock
  {
    if m < n {
      assert StepAt(ws, acts, n - 1) && NoFenceAt(ws, acts, n - 1, workspaceId);
      OnlyFencesAddLocks(ws[n - 1], acts[n - 1], ws[n], workspaceId);
      ClockAt(ws[n - 1], acts[n - 1], ws[n]);
      LockAges(ws, acts, m, n - 1, workspaceId);
    }
  }

  // Once the owner has crashed and its fence run out, the applied, unrecorded delivery ends blocked.
  lemma CrashedApplyEndsBlocked(ws: seq<World>, acts: seq<Action>, p: nat, i: nat, n: nat, host: Host,
                                r: string, observable: bool)
    requires Trace(ws, acts) && Init(ws[0]) && p < i < n <= |acts|
    requires acts[p].PersistReceipt? && acts[p].runId == r && Current(ws[p].store, r, acts[p].receipt.attemptId)
    requires acts[i].Apply? && acts[i].owner in ws[i].tickets
    requires ws[i].tickets[acts[i].owner] == Ticket(r, host.workspaceId) && r in ws[i].store.runs
    requires ws[i].store.runs[r].run.currentIdentity.Some?
             && ws[i].store.runs[r].run.currentIdentity.value != acts[i].result.identity
    requires forall k :: i < k < n ==> QuietAt(ws, acts, k, r, host.workspaceId) && NoFenceAt(ws, acts, k, host.workspaceId)
    requires forall k :: p < k < n ==> !LostAt(ws, acts, k, r, acts[p].receipt.attemptId)
    requires r in ws[n].store.runs && ws[n].store.runs[r].run.status == Active
    requires host.workspaceId in ws[i].store.locks ==>
               ws[i].store.locks[host.workspaceId].expiresAt <= ws[n].store.clock
    ensures (var (s', outcome) := Recover(ws[n].store, host, r, observable);
             outcome.RecoveryBlocked? && r in s'.runs && s'.runs[r].run.status == Blocked)
  {
    UnrecordedApplyIsNeverResumed(ws, acts, p, i, n, host, r, observable);
    AppliedAt(ws, acts, i, r, host.workspaceId);
    QuietStaysDiverged(ws, acts, i + 1, n, r, host.workspaceId);
    if host.workspaceId in ws[n].store.locks {
      assert NoFenceAt(ws, acts, i, host.workspaceId);
      LockAges(ws, acts, i, n, host.workspaceId);
    }
  }

  // ---- Linearity of recorded deliveries ----

  // One successful record: revision plus one, and the Run, the workspace and
  // the integration all agree on the identity.
  lemma RecordedStep(w: World, act: Action, w': World, r: string)
    requires Next(w, act, w') && Recorded(w, act, r)
    ensures r in w.store.runs && r in w'.store.runs
    ensures (var run, run' := w.store.runs[r].run, w'.store.runs[r].run;
             run.mutationRevision == act.snap.mutationRevision
             && run'.mutationRevision == act.snap.mutationRevision + 1
             && run.currentIdentity == Some(act.snap.identity)
             && run'.currentIdentity == Some(act.patch.integrationIdentity)
             && act.patch.integrationIdentity != act.snap.identity
             && Observe(w'.store, act.snap.workspaceId).identity == act.patch.integrationIdentity)
    ensures w'.store.runs[r].provenance.Some?
    ensures (var p := w'.store.runs[r].provenance.value;
             p.mutationRevision == act.snap.mutationRevision + 1
             && p.workspaceIdentity == act.patch.integrationIdentity
             && p.changedPaths == act.patch.changedPaths && p.mutationDigest == act.patch.digest)
    ensures forall x :: x in w.store.runs && x != r ==> x in w'.store.runs && w'.store.runs[x] == w.store.runs[x]
  {
    CasFacts(w.store, act.host, r, act.snap, act.session, act.token, Post);
  }

  ghost function Records(ws: seq<World>, acts: seq<Action>, r: string, n: nat): nat
    requires n <= |acts| < |ws|
  {
    if n == 0 then 0
    else Records(ws, acts, r, n - 1) + (if Recorded(ws[n - 1], acts[n - 1], r) then 1 else 0)
  }

  ghost function Observations(ws: seq<World>, acts: seq<Action>, r: string, n: nat): nat
    requires n <= |acts| < |ws|
  {
    if n == 0 then 0
    else Observations(ws, acts, r, n - 1) + (if Observes(ws[n - 1].store, acts[n - 1], r) then 1 else 0)
  }

  lemma RecordedAt(ws: seq<World>, acts: seq<Action>, k: nat, r: string)
    requires Trace(ws, acts) && k < |acts| && Recorded(ws[k], acts[k], r)
    ensures r in ws[k].store.runs && r in ws[k + 1].store.runs
    ensures (var run, run' := ws[k].store.runs[r].run, ws[k + 1].store.runs[r].run;
             && run.mutationRevision == acts[k].snap.mutationRevision
             && run'.mutationRevision == acts[k].snap.mutationRevision + 1
             && run.currentIdentity == Some(acts[k].snap.identity)
             && run'.currentIdentity == Some(acts[k].patch.integrationIdentity))
  {
    assert StepAt(ws, acts, k);
    RecordedStep(ws[k], acts[k], ws[k + 1], r);
  }

  lemma ObservedAt(ws: seq<World>, acts: seq<Action>, k: nat, r: string)
    requires Trace(ws, acts) && k < |acts| && Observes(ws[k].store, acts[k], r)
    ensures r in ws[k + 1].store.runs
    ensures ws[k + 1].store.runs[r].run.mutationRevision == ws[k].store.runs[r].run.mutationRevision + 1
    ensures ws[k + 1].store.runs[r].run.currentIdentity == Some(acts[k].identity)
  {
    assert StepAt(ws, acts, k);
  }

  lemma UnmovedAt(ws: seq<World>, acts: seq<Action>, k: nat, r: string)
    requires Trace(ws, acts) && k < |acts| && r in ws[k].store.runs && !Moves(ws[k], acts[k], r)
    ensures r in ws[k + 1].store.runs
    ensures ws[k + 1].store.runs[r].run.mutationRevision == ws[k].store.runs[r].run.mutationRevision
    ensures ws[k].store.runs[r].run.currentIdentity.Some? ==>
              ws[k + 1].store.runs[r].run.currentIdentity == ws[k].store.runs[r].run.currentIdentity
  {
    assert StepAt(ws, acts, k);
    SameRunUnlessMoved(ws[k], acts[k], ws[k + 1], r);
  }

  // Conservation: from any point on, the revision counts the successful records and the observed changes.
  lemma {:induction false} RevisionCountsMoves(ws: seq<World>, acts: seq<Action>, r: string, m: nat, n: nat)
    requires Trace(ws, acts) && m <= n <= |acts| && r in ws[m].store.runs
    ensures r in ws[n].store.runs
    ensures ws[n].store.runs[r].run.mutationRevision + Records(ws, acts, r, m) + Observations(ws, acts, r, m)
            == ws[m].store.runs[r].run.mutationRevision + Records(ws, acts, r, n) + Observations(ws, acts, r, n)
  {
    if m < n {
      RevisionCountsMoves(ws, acts, r, m, n - 1);
      if Recorded(ws[n - 1], acts[n - 1], r) {
        RecordedAt(ws, acts, n - 1, r);
      } else if Observes(ws[n - 1].store, acts[n - 1], r) {
        ObservedAt(ws, acts, n - 1, r);
      } else {
        UnmovedAt(ws, acts, n - 1, r);
      }
    }
  }

  lemma {:induction false} MovesGrow(ws: seq<World>, acts: seq<Action>, r: string, m: nat, n: nat)
    requires m <= n <= |acts| < |ws|
    ensures Records(ws, acts, r, m) <= Records(ws, acts, r, n) && Observations(ws, acts, r, m) <= Observations(ws, acts, r, n)
    ensures Observations(ws, acts, r, m) == Observations(ws, acts, r, n)
            <==> forall k :: m <= k < n ==> !Observes(ws[k].store, acts[k], r)
    ensures Records(ws, acts, r, m) == Records(ws, acts, r, n)
            <==> forall k :: m <= k < n ==> !Recorded(ws[k], acts[k], r)
  {
    if m < n { MovesGrow(ws, acts, r, m, n - 1); }
  }

  // The base of a delivery, counted from an earlier one.
  lemma BaseCountsMovesBetween(ws: seq<World>, acts: seq<Action>, r: string, i: nat, j: nat)
    requires Trace(ws, acts) && i < j < |acts| && Recorded(ws[i], acts[i], r) && Recorded(ws[j], acts[j], r)
    ensures acts[j].snap.mutationRevision + Records(ws, acts, r, i + 1) + Observations(ws, acts, r, i + 1)
            == acts[i].snap.mutationRevision + 1 + Records(ws, acts, r, j) + Observations(ws, acts, r, j)
  {
    RecordedAt(ws, acts, i, r);
    RevisionCountsMoves(ws, acts, r, i + 1, j);
    RecordedAt(ws, acts, j, r);
  }

  // Two deliveries never commit from the same base snapshot.
  lemma NoTwoRecordsFromOneBase(ws: seq<World>, acts: seq<Action>, r: string, i: nat, j: nat)
    requires Trace(ws, acts) && i < j < |acts| && Recorded(ws[i], acts[i], r) && Recorded(ws[j], acts[j], r)
    ensures acts[i].snap.mutationRevision < acts[j].snap.mutationRevision
  {
    BaseCountsMovesBetween(ws, acts, r, i, j);
    MovesGrow(ws, acts, r, i + 1, j);
  }

  lemma {:induction false} UnmovedUntil(ws: seq<World>, acts: seq<Action>, m: nat, n: nat, r: string)
    requires Trace(ws, acts) && m <= n <= |acts| && r in ws[m].store.runs
    requires ws[m].store.runs[r].run.currentIdentity.Some?
    requires forall k :: m <= k < n ==> !Recorded(ws[k], acts[k], r) && !Observes(ws[k].store, acts[k], r)
    ensures r in ws[n].store.runs
    ensures ws[n].store.runs[r].run.currentIdentity == ws[m].store.runs[r].run.currentIdentity
  {
    if m < n {
      UnmovedUntil(ws, acts, m, n - 1, r);
      UnmovedAt(ws, acts, n - 1, r);
    }
  }

  lemma UnmovedHandsOver(ws: seq<World>, acts: seq<Action>, r: string, i: nat, j: nat)
    requires Trace(ws, acts) && i < j < |acts|
    requires Recorded(ws[i], acts[i], r) && Recorded(ws[j], acts[j], r)
    requires forall k :: i < k < j ==> !Recorded(ws[k], acts[k], r) && !Observes(ws[k].store, acts[k], r)
    ensures acts[j].snap.identity == acts[i].patch.integrationIdentity
  {
    RecordedAt(ws, acts, i, r);
    UnmovedUntil(ws, acts, i + 1, j, r);
    RecordedAt(ws, acts, j, r);
  }

  // Consecutive deliveries form a chain, each from what the last produced, exactly
  // when no change was observed between them; each observation adds one to the gap.
  lemma RecordsFormAChain(ws: seq<World>, acts: seq<Action>, r: string, i: nat, j: nat)
    requires Trace(ws, acts) && i < j < |acts| && Recorded(ws[i], acts[i], r) && Recorded(ws[j], acts[j], r)
    requires forall k :: i < k < j ==> !Recorded(ws[k], acts[k], r)
    ensures acts[j].snap.mutationRevision
            == acts[i].snap.mutationRevision + 1 + Observations(ws, acts, r, j) - Observations(ws, acts, r, i + 1)
    ensures acts[j].snap.mutationRevision == acts[i].snap.mutationRevision + 1
            <==> forall k :: i < k < j ==> !Observes(ws[k].store, acts[k], r)
    ensures acts[j].snap.mutationRevision == acts[i].snap.mutationRevision + 1 ==>
              acts[j].snap.identity == acts[i].patch.integrationIdentity
  {
    MovesGrow(ws, acts, r, i + 1, j);
    BaseCountsMovesBetween(ws, acts, r, i, j);
    if forall k :: i < k < j ==> !Observes(ws[k].store, acts[k], r) {
      UnmovedHandsOver(ws, acts, r, i, j);
    }
  }

  // ---- Settlement ----

  // A worker's result is settled only one revision after its attempt, on the
  // tree the owner mutation produced, and only for paths that mutation contains.
  lemma SettlementNeedsTheDelivery(s: Store, host: Host, r: string, payload: WorkerPayload, mutation: DeliveryMutation,
                                   receipt: WorkerReceipt, guarded: bool)
    requires SettlementDecision(s, host, r, payload, mutation, receipt, guarded).None?
    ensures r in s.runs && payload.attemptId in s.runs[r].attempts && s.runs[r].provenance.Some?
    ensures (var rows := s.runs[r];
             var a := rows.attempts[payload.attemptId];
             rows.run.mutationRevision == a.mutationRevision + 1
             && rows.run.currentIdentity == Some(Observe(s, host.workspaceId).identity)
             && rows.provenance.value.workspaceIdentity == Observe(s, host.workspaceId).identity
             && a.changedPaths <= rows.provenance.value.changedPaths
             && LiveAttempt(a) && CompleteReceipt(a))
  {
  }

  ghost predicate PassedIn(s: Store, r: string, st: string) {
    r in s.runs && st in s.runs[r].steps && s.runs[r].steps[st].state == Passed
  }

  predicate TakesBack(act: Action, r: string, st: string) {
    (act.FailStep? || (act.OperateStep? && act.op != CompleteStep)) && act.runId == r && act.stepId == st
  }

  lemma SettleNeedsAnOpenStep(s: Store, act: Action)
    requires act.Settle? && Enabled(s, act)
    ensures act.payload.stepId in s.runs[act.runId].steps
    ensures s.runs[act.runId].steps[act.payload.stepId].state != Passed
  {
  }

  lemma LedgerKeepsPassed(s: Store, act: Action, st: string)
    requires Ledger(act) && Enabled(s, act) && PassedIn(s, act.runId, st)
    ensures st in Rewritten(s, act).steps
    ensures Rewritten(s, act).steps[st].state == Passed <==> !TakesBack(act, act.runId, st)
    ensures !(act.Settle? && act.payload.stepId == st)
  {
    if act.Settle? { SettleNeedsAnOpenStep(s, act); }
    if act.OwnerReport? {
      ReconcileOnlyLinks(act.runId, ReportRows(s.runs[act.runId], act.attemptId, act.attempt, act.state));
    }
  }

  lemma LedgerStepKeepsPassed(w: World, act: Action, w': World, st: string)
    requires Ledger(act) && Next(w, act, w') && PassedIn(w.store, act.runId, st)
    ensures PassedIn(w'.store, act.runId, st) <==> !TakesBack(act, act.runId, st)
    ensures !(act.Settle? && act.payload.stepId == st)
  {
    LedgerKeepsPassed(w.store, act, st);
  }

  lemma RecordKeepsPassed(w: World, act: Action, w': World, r: string, st: string)
    requires act.Record? && Next(w, act, w') && PassedIn(w.store, r, st)
    ensures PassedIn(w'.store, r, st)
  {
    RecordWrites(w.store, act.host, act.runId, act.snap, act.session, act.token, act.patch);
  }

  lemma LivedKeepsPassed(s: Store, s': Store, r: string, st: string)
    requires Lived(s, s') && PassedIn(s, r, st)
    ensures PassedIn(s', r, st)
  {
    assert LivedRows(s.runs[r], s'.runs[r]);
  }

  lemma LifeKeepsPassed(w: World, act: Action, w': World, r: string, st: string)
    requires Life(act) && Next(w, act, w') && PassedIn(w.store, r, st)
    ensures PassedIn(w'.store, r, st)
  {
    LifeLives(w.store, act);
    LivedKeepsPassed(w.store, w'.store, r, st);
  }

  // Only failing or restarting the step takes a pass back, and it always does; it is never settled again.
  lemma PassedStepLeavesIff(w: World, act: Action, w': World, r: string, st: string)
    requires Next(w, act, w') && PassedIn(w.store, r, st)
    ensures !PassedIn(w'.store, r, st) <==> TakesBack(act, r, st)
    ensures !(act.Settle? && act.runId == r && act.payload.stepId == st)
  {
    if !Touches(act, r) {
      UntouchedRowsStay(w, act, w', r);
    } else if Ledger(act) {
      LedgerStepKeepsPassed(w, act, w', st);
    } else if act.Record? {
      RecordKeepsPassed(w, act, w', r, st);
    } else if Life(act) {
      LifeKeepsPassed(w, act, w', r, st);
    } else {
      RecoveryKeepsLedger(w, act, w', r);
    }
  }

  lemma PassedAt(ws: seq<World>, acts: seq<Action>, k: nat, r: string, st: string)
    requires Trace(ws, acts) && k < |acts| && PassedIn(ws[k].store, r, st)
    ensures PassedIn(ws[k + 1].store, r, st) <==> !TakesBack(acts[k], r, st)
    ensures !(acts[k].Settle? && acts[k].runId == r && acts[k].payload.stepId == st)
  {
    assert StepAt(ws, acts, k);
    PassedStepLeavesIff(ws[k], acts[k], ws[k + 1], r, st);
  }

  lemma {:induction false} PassedUntil(ws: seq<World>, acts: seq<Action>, m: nat, n: nat, r: string, st: string)
    requires Trace(ws, acts) && m <= n <= |acts| && PassedIn(ws[m].store, r, st)
    requires forall k :: m <= k < n ==> !TakesBack(acts[k], r, st)
    ensures PassedIn(ws[n].store, r, st)
  {
    if m < n {
      PassedUntil(ws, acts, m, n - 1, r, st);
      PassedAt(ws, acts, n - 1, r, st);
    }
  }

  lemma SettlePasses(ws: seq<World>, acts: seq<Action>, i: nat)
    requires Trace(ws, acts) && i < |acts| && acts[i].Settle? && acts[i].verdict == Some(true)
    ensures PassedIn(ws[i + 1].store, acts[i].runId, acts[i].payload.stepId)
  {
    assert StepAt(ws, acts, i);
  }

  // A step that passed settles again, crash or not, only if it was failed or restarted in between.
  lemma PassedStepSettlesOnce(ws: seq<World>, acts: seq<Action>, i: nat, j: nat)
    requires Trace(ws, acts) && i < j < |acts|
    requires acts[i].Settle? && acts[i].verdict == Some(true) && acts[j].Settle?
    requires acts[j].runId == acts[i].runId && acts[j].payload.stepId == acts[i].payload.stepId
    ensures exists k :: i < k < j && TakesBack(acts[k], acts[i].runId, acts[i].payload.stepId)
  {
    SettlePasses(ws, acts, i);
    if forall k :: i < k < j ==> !TakesBack(acts[k], acts[i].runId, acts[i].payload.stepId) {
      PassedUntil(ws, acts, i + 1, j, acts[i].runId, acts[i].payload.stepId);
      PassedAt(ws, acts, j, acts[i].runId, acts[i].payload.stepId);
    }
  }

  // ---- Fencing tokens ----

  ghost predicate Fenced(w: World, act: Action) {
    act.Acquire?
    && AcquireOwnerFence(w.store, act.host, act.runId, act.snap, act.recovery, act.session, act.ttl).1.Ok?
  }

  ghost function TokenOf(w: World, act: Action): nat
    requires Fenced(w, act)
  {
    AcquireOwnerFence(w.store, act.host, act.runId, act.snap, act.recovery, act.session, act.ttl).1.value.fencingToken
  }

  // Tokens above t from here on: the epoch has reached t and no older row is left.
  ghost predicate Above(s: Store, ws: string, t: nat) {
    ws in s.workspaces && t <= s.workspaces[ws].epoch && (ws in s.locks ==> t <= s.locks[ws].fencingToken)
  }

  lemma AcquireLockAbove(s: Store, ws: string, projectId: string, r: string, session: string, ttl: nat, ws': string, t: nat)
    requires Above(s, ws', t)
    requires AcquireLock(s, ws, projectId, r, session, ttl).LockAcquired?
    ensures Above(AcquireLock(s, ws, projectId, r, session, ttl).store, ws', t)
    ensures ws == ws' ==> t < AcquireLock(s, ws, projectId, r, session, ttl).lock.fencingToken
  {
  }

  lemma AboveStays(w: World, act: Action, w': World, ws: string, t: nat)
    requires Next(w, act, w') && Above(w.store, ws, t)
    ensures Above(w'.store, ws, t)
    ensures Fenced(w, act) && act.snap.workspaceId == ws ==> t < TokenOf(w, act)
  {
    if act.Acquire? {
      AcquireStaysAbove(w, act, w', ws, t);
    } else if act.Renew? {
      RenewStaysAbove(w, act, w', ws, t);
    } else if act.Release? {
      ReleaseStaysAbove(w, act, w', ws, t);
    } else {
      OtherStepsOnlyDropLocks(w, act, w');
    }
  }

  // Keeping the lock keeps its token; handing it back keeps the epoch.
  lemma HandBackStaysAbove(locked: Store, lock: Lock, host: Host, r: string, snap: Snapshot, session: string, phase: Phase,
                           ws: string, t: nat)
    requires Above(locked, ws, t)
    ensures (var (s', result) := KeepOrHandBack(locked, lock, host, r, snap, session, phase);
             Above(s', ws, t) && (result.Ok? ==> result.value == lock))
  {
  }

  lemma AcquireStaysAbove(w: World, act: Action, w': World, ws: string, t: nat)
    requires act.Acquire? && Next(w, act, w') && Above(w.store, ws, t)
    ensures Above(w'.store, ws, t)
    ensures Fenced(w, act) && act.snap.workspaceId == ws ==> t < TokenOf(w, act)
  {
    var snap := act.snap;
    var outcome := AcquireLock(w.store, snap.workspaceId, snap.projectId, act.runId, act.session, act.ttl);
    AcquireTakesOrLeaves(w.store, act.host, act.runId, snap, act.recovery, act.session, act.ttl);
    if outcome.LockAcquired? {
      AcquireLockAbove(w.store, snap.workspaceId, snap.projectId, act.runId, act.session, act.ttl, ws, t);
      HandBackStaysAbove(outcome.store, outcome.lock, act.host, act.runId, snap, act.session,
                         if act.recovery.Some? then PostCommit else Pre, ws, t);
    }
  }

  lemma RenewStaysAbove(w: World, act: Action, w': World, ws: string, t: nat)
    requires act.Renew? && Next(w, act, w') && Above(w.store, ws, t)
    ensures Above(w'.store, ws, t)
  {
  }

  lemma ReleaseStaysAbove(w: World, act: Action, w': World, ws: string, t: nat)
    requires act.Release? && Next(w, act, w') && Above(w.store, ws, t)
    ensures Above(w'.store, ws, t)
  {
  }

  // No lock is made or changed, and no epoch.
  ghost predicate OnlyDropsLocks(s: Store, s': Store) {
    s'.workspaces == s.workspaces && forall ws :: ws in s'.locks ==> ws in s.locks && s'.locks[ws] == s.locks[ws]
  }

  lemma OtherStepsOnlyDropLocks(w: World, act: Action, w': World)
    requires Next(w, act, w') && !act.Acquire? && !act.Renew? && !act.Release?
    ensures OnlyDropsLocks(w.store, w'.store)
  {
    if Life(act) { LifeLives(w.store, act); } else if !Ledger(act) { DeliveryOnlyDropsLocks(w, act, w'); }
  }

  lemma DeliveryOnlyDropsLocks(w: World, act: Action, w': World)
    requires !Ledger(act) && !Life(act) && DeliveryStep(w, act, w') && !act.Acquire? && !act.Renew? && !act.Release?
    ensures OnlyDropsLocks(w.store, w'.store)
  {
    if act.RunRecovery? {
      RecoveryWrites(w.store, act.host, act.runId, act.observable);
    } else if act.Block? {
      BlockWrites(w.store, act.runId);
    } else if act.Record? {
      RecordWrites(w.store, act.host, act.runId, act.snap, act.session, act.token, act.patch);
    }
  }

  lemma FencedIsAbove(w: World, act: Action, w': World)
    requires Next(w, act, w') && Fenced(w, act)
    ensures Above(w'.store, act.snap.workspaceId, TokenOf(w, act))
  {
  }

  lemma FencedStaysAbove(ws: seq<World>, acts: seq<Action>, i: nat, n: nat)
    requires Trace(ws, acts) && i < n <= |acts| && Fenced(ws[i], acts[i])
    ensures Above(ws[n].store, acts[i].snap.workspaceId, TokenOf(ws[i], acts[i]))
  {
    FencedAt(ws, acts, i);
    AboveUntil(ws, acts, i + 1, n, acts[i].snap.workspaceId, TokenOf(ws[i], acts[i]));
  }

  // Each fence on a workspace gets a larger token than every earlier one.
  lemma TokensGrow(ws: seq<World>, acts: seq<Action>, i: nat, j: nat)
    requires Trace(ws, acts) && i < j < |acts|
    requires Fenced(ws[i], acts[i]) && Fenced(ws[j], acts[j])
    requires acts[i].snap.workspaceId == acts[j].snap.workspaceId
    ensures TokenOf(ws[i], acts[i]) < TokenOf(ws[j], acts[j])
  {
    FencedStaysAbove(ws, acts, i, j);
    AboveAt(ws, acts, j, acts[i].snap.workspaceId, TokenOf(ws[i], acts[i]));
  }

  // An owner whose fence was superseded can no longer record.
  lemma SupersededOwnerCannotRecord(ws: seq<World>, acts: seq<Action>, i: nat, j: nat, k: nat)
    requires Trace(ws, acts) && i < j < k < |acts|
    requires Fenced(ws[i], acts[i]) && Fenced(ws[j], acts[j])
    requires acts[i].snap.workspaceId == acts[j].snap.workspaceId
    requires acts[k].Record? && acts[k].snap.workspaceId == acts[i].snap.workspaceId
    requires acts[k].token == TokenOf(ws[i], acts[i])
    ensures !Recorded(ws[k], acts[k], acts[k].runId)
  {
    TokensGrow(ws, acts, i, j);
    FencedStaysAbove(ws, acts, j, k);
    StaleTokenRecordsNothing(ws[k], acts[k], TokenOf(ws[j], acts[j]));
  }

  lemma StaleTokenRecordsNothing(w: World, act: Action, t: nat)
    requires act.Record? && Above(w.store, act.snap.workspaceId, t) && act.token < t
    ensures !Recorded(w, act, act.runId)
  {
  }

  lemma FencedAt(ws: seq<World>, acts: seq<Action>, k: nat)
    requires Trace(ws, acts) && k < |acts| && Fenced(ws[k], acts[k])
    ensures Above(ws[k + 1].store, acts[k].snap.workspaceId, TokenOf(ws[k], acts[k]))
  {
    assert StepAt(ws, acts, k);
    FencedIsAbove(ws[k], acts[k], ws[k + 1]);
  }

  lemma AboveAt(ws: seq<World>, acts: seq<Action>, k: nat, workspaceId: string, t: nat)
    requires Trace(ws, acts) && k < |acts| && Above(ws[k].store, workspaceId, t)
    ensures Above(ws[k + 1].store, workspaceId, t)
    ensures Fenced(ws[k], acts[k]) && acts[k].snap.workspaceId == workspaceId ==> t < TokenOf(ws[k], acts[k])
  {
    assert StepAt(ws, acts, k);
    AboveStays(ws[k], acts[k], ws[k + 1], workspaceId, t);
  }

  lemma {:induction false} AboveUntil(ws: seq<World>, acts: seq<Action>, m: nat, n: nat, workspaceId: string, t: nat)
    requires Trace(ws, acts) && m <= n <= |acts| && Above(ws[m].store, workspaceId, t)
    ensures Above(ws[n].store, workspaceId, t)
  {
    if m < n {
      AboveUntil(ws, acts, m, n - 1, workspaceId, t);
      AboveAt(ws, acts, n - 1, workspaceId, t);
    }
  }
}
