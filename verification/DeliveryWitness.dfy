/** Runs that show how an applied but unrecorded delivery is waved through. */
module DeliveryWitness {
  import opened Prelude
  import opened KernelRows
  import opened WorktreeAuthority
  import opened Delivery
  import opened DeliveryRecovery
  import opened RunLifecycle
  import opened DeliveryProtocol
  import opened DeliveryEvidence
  import opened DeliverySafety

  // One Run with one ready step on one workspace.
  const HOST := Host("project", "worktree", "workspace", "session")
  const RUN := Run(Active, "project", Some("worktree"), Some("workspace"), "source", None, 1, 1, 0, Some("recorded"))
  const REPORT := WorkerReport("attempt", "step", "worker", 1, 1, {"file"}, "index")
  const RECEIPT := WorkerReceipt("attempt", "worker", "recorded", "result", "commit", "digest", {"file"}, REPORT)
  const SNAPSHOT := Snapshot(0, "recorded", "head", "project", "worktree", "workspace", None)
  const PATCH := Patch("delivered", {"file"}, "digest")
  const APPLIED := Live("delivered", Some("head"), true, "index")
  const FENCE := Lock("project", "run", "session", 1, 10)

  function AttemptOf(kind: AttemptKind, workspaceId: string): Attempt {
    Attempt("step", kind, Started, 1, 0, None, None, Some(workspaceId), Some("recorded"), None, None, None, {}, None,
            None, false, None, None, None, None)
  }

  function Rows(attempts: map<string, Attempt>, step: Step): RunRows {
    RunRows(RUN, None, attempts, map["step" := step])
  }

  function StoreOf(rows: RunRows, epoch: nat, locks: map<string, Lock>, live: Live): Store {
    Store(map["run" := rows], map["workspace" := Workspace("project", "worktree", epoch)],
          map["worktree" := Lease("project", "run")], locks, map["workspace" := live], 0)
  }

  const TREE := Live("recorded", Some("head"), false, "index")
  const FRESH := Rows(map[], Step(1, StepState.Ready, None))
  const RUNNING := Step(1, Running, Some("worker"))
  const DISPATCHED := Rows(map["attempt" := AttemptOf(Routed, "worker")], RUNNING)
  const RECEIVED := AttemptOf(Routed, "worker").(
    resultIdentity := Some("result"), resultCommit := Some("commit"), patchDigest := Some("digest"),
    changedPaths := {"file"}, workerReport := Some(REPORT))
  const PERSISTED := Rows(map["attempt" := RECEIVED], RUNNING)
  const TICKETS := map["owner" := Ticket("run", "workspace")]
  const LOCKS := map["workspace" := FENCE]

  const W0 := World(StoreOf(FRESH, 0, map[], TREE), map[])
  const W1 := World(StoreOf(DISPATCHED, 0, map[], TREE), map[])
  const W2 := World(StoreOf(PERSISTED, 0, map[], TREE), map[])
  const W3 := World(StoreOf(PERSISTED, 1, LOCKS, TREE), map[])
  const W4 := World(StoreOf(PERSISTED, 1, LOCKS, TREE), TICKETS)
  const W5 := World(StoreOf(PERSISTED, 1, LOCKS, APPLIED), TICKETS)

  const DISPATCH := Dispatch("run", "attempt", AttemptOf(Routed, "worker"))
  const PERSIST := PersistReceipt("run", RECEIPT)
  const ACQUIRE := Acquire(HOST, "run", SNAPSHOT, None, "session", 10)
  const READY := Action.Ready("owner", HOST, "run", SNAPSHOT, "session", 1, PATCH, {"attempt"})
  const APPLY := Apply("owner", APPLIED)

  lemma Dispatched()
    ensures Init(W0) && Next(W0, DISPATCH, W1)
  {
    assert Rewritten(W0.store, DISPATCH) == DISPATCHED;
  }

  lemma Persisted()
    ensures Next(W1, PERSIST, W2)
  {
    assert Rewritten(W1.store, PERSIST) == PERSISTED;
  }

  lemma FenceTaken(s: Store, host: Host, r: string, snap: Snapshot, session: string, ttl: nat, locked: Store, lock: Lock)
    requires r in s.runs && s.runs[r].run.status == Active && CompleteSnapshot(snap, session)
    requires snap.projectId == host.projectId && snap.worktreeId == host.worktreeId && snap.workspaceId == host.workspaceId
    requires AcquireLock(s, snap.workspaceId, snap.projectId, r, session, ttl) == LockAcquired(locked, lock)
    requires AssertCAS(locked, host, r, snap, session, lock.fencingToken, Pre).None?
    ensures AcquireOwnerFence(s, host, r, snap, None, session, ttl) == (locked, Ok(lock))
  {
  }

  lemma LockTaken()
    ensures AcquireLock(W2.store, "workspace", "project", "run", "session", 10) == LockAcquired(W3.store, FENCE)
  {
  }

  lemma SnapshotHolds()
    ensures AssertCAS(W3.store, HOST, "run", SNAPSHOT, "session", 1, Pre).None?
  {
  }

  lemma FenceStep(w: World, host: Host, r: string, snap: Snapshot, session: string, ttl: nat, locked: Store, lock: Lock)
    requires AcquireOwnerFence(w.store, host, r, snap, None, session, ttl) == (locked, Ok(lock))
    ensures Next(w, Acquire(host, r, snap, None, session, ttl), w.(store := locked))
  {
  }

  lemma Acquired()
    ensures Next(W2, ACQUIRE, W3)
  {
    LockTaken();
    SnapshotHolds();
    FenceTaken(W2.store, HOST, "run", SNAPSHOT, "session", 10, W3.store, FENCE);
    FenceStep(W2, HOST, "run", SNAPSHOT, "session", 10, W3.store, FENCE);
  }

  lemma Readied()
    ensures Next(W3, READY, W4)
  {
    SnapshotHolds();
    assert PERSISTED.attempts["attempt"] == RECEIVED && "file" in RECEIVED.changedPaths;
    assert ReceiptPaths(PERSISTED, {"attempt"}) == {"file"};
  }

  lemma Applied()
    ensures Next(W4, APPLY, W5)
  {
  }

  const PREFIX := [W0, W1, W2, W3, W4, W5]
  const CALLS := [DISPATCH, PERSIST, ACQUIRE, READY, APPLY]

  // The delivery up to the apply, followed by any run that starts there.
  lemma AppliedThen(ws: seq<World>, acts: seq<Action>)
    requires Trace(ws, acts) && ws[0] == W5
    ensures Trace(PREFIX + ws[1..], CALLS + acts) && Init((PREFIX + ws[1..])[0])
    ensures forall k :: 0 <= k <= |acts| ==> (PREFIX + ws[1..])[5 + k] == ws[k]
  {
    var all, calls := PREFIX + ws[1..], CALLS + acts;
    forall i | 0 <= i < |calls| ensures StepAt(all, calls, i) {
      if i < 5 {
        DeliveryRuns(i);
      } else {
        assert StepAt(ws, acts, i - 5);
        assert all[i] == ws[i - 5];
      }
    }
    Dispatched();
  }

  lemma DeliveryStarts(i: nat)
    requires i < 2
    ensures Next(PREFIX[i], CALLS[i], PREFIX[i + 1])
  {
    if i == 0 { Dispatched(); } else { Persisted(); }
  }

  lemma DeliveryEnds(i: nat)
    requires 2 <= i < 5
    ensures Next(PREFIX[i], CALLS[i], PREFIX[i + 1])
  {
    if i == 2 { Acquired(); } else if i == 3 { Readied(); } else { Applied(); }
  }

  lemma DeliveryRuns(i: nat)
    requires i < 5
    ensures Next(PREFIX[i], CALLS[i], PREFIX[i + 1])
  {
    if i < 2 { DeliveryStarts(i); } else { DeliveryEnds(i); }
  }

  // ---- Losing the only receipt ----

  // A delivery was applied and not recorded, and one attempt is all that shows it.
  ghost predicate OnlyReceipt(w: World, host: Host, r: string, id: string) {
    OnOwnWorkspace(w.store, host, r) && Diverged(w.store, r, host.workspaceId)
    && (var rows := w.store.runs[r];
        rows.provenance.None? && id in rows.attempts
        && forall x :: x in rows.attempts && Weighed(rows.attempts[x]) ==> x == id)
  }

  // The tree is not the recorded one, and recovery finds nothing pending.
  ghost predicate Hidden(w: World, host: Host, r: string) {
    OnOwnWorkspace(w.store, host, r) && Diverged(w.store, r, host.workspaceId)
    && forall observable :: Recover(w.store, host, r, observable).1 == Nothing
  }

  lemma LostIsHidden(w: World, host: Host, r: string)
    requires OnOwnWorkspace(w.store, host, r) && Diverged(w.store, r, host.workspaceId)
    requires w.store.runs[r].provenance.None?
    requires (var rows := w.store.runs[r];
              forall x :: x in rows.attempts && Weighed(rows.attempts[x]) ==> Lost(rows, rows.attempts[x]))
    ensures Hidden(w, host, r)
  {
    forall observable ensures Recover(w.store, host, r, observable).1 == Nothing {
      MissedIff(w.store, host, r, observable);
    }
  }

  ghost function After(w: World, act: Action): World
    requires Ledger(act) && Enabled(w.store, act)
    ensures Next(w, act, After(w, act))
  {
    w.(store := WithRows(w.store, act.runId, Rewritten(w.store, act)))
  }

  lemma InterruptHides(w: World, host: Host, r: string, id: string)
    requires OnlyReceipt(w, host, r, id) && LiveAttempt(w.store.runs[r].attempts[id])
    ensures Enabled(w.store, Interrupt(r, id)) && Hidden(After(w, Interrupt(r, id)), host, r)
  {
    LostIsHidden(After(w, Interrupt(r, id)), host, r);
  }

  lemma ReplanHides(w: World, host: Host, r: string, id: string, replacement: map<string, Step>, resume: bool)
    requires OnlyReceipt(w, host, r, id) && ReplacementPlan(w.store.runs[r], replacement)
    requires w.store.runs[r].attempts[id].stepId in w.store.runs[r].steps
    requires w.store.runs[r].steps[w.store.runs[r].attempts[id].stepId].planRevision == w.store.runs[r].run.planRevision
    ensures Hidden(After(w, Replan(r, replacement, resume)), host, r)
  {
    var rows := w.store.runs[r];
    var st := rows.attempts[id].stepId;
    assert ReplanRows(rows, replacement, resume).steps[st].planRevision == rows.run.planRevision;
    LostIsHidden(After(w, Replan(r, replacement, resume)), host, r);
  }

  // Giving the step to a second worker in another workspace hides the first receipt.
  lemma RedispatchHides(w: World, host: Host, r: string, id: string, second: string, a: Attempt)
    requires OnlyReceipt(w, host, r, id) && CanDispatch(w.store.runs[r], second, a)
    requires a.kind == HostOwned && a.stepId == w.store.runs[r].attempts[id].stepId
    requires a.workspaceId != w.store.runs[r].attempts[id].workspaceId
    ensures Hidden(After(w, Dispatch(r, second, a)), host, r)
  {
    LostIsHidden(After(w, Dispatch(r, second, a)), host, r);
  }

  // Failing the step hides nothing, unlike those three: the Run still waits under its fence, or is blocked.
  lemma FailingHidesNothing(w: World, host: Host, r: string, id: string, observable: bool)
    requires OnOwnWorkspace(w.store, host, r) && Diverged(w.store, r, host.workspaceId) && Counted(w.store.runs[r], id)
    ensures (var fail := FailStep(r, w.store.runs[r].attempts[id].stepId, Some(id));
             && Enabled(w.store, fail)
             && Recover(After(w, fail).store, host, r, observable).1 == InDoubtAnswer(w.store, r, observable))
  {
    var stepId := w.store.runs[r].attempts[id].stepId;
    var after := After(w, FailStep(r, stepId, Some(id)));
    FailStepCounts(w.store.runs[r], stepId, Some(id), id);
    CountedIsAnswered(after.store, host, r, observable, id);
  }

  // ---- Whole runs ----

  lemma AppliedOnlyReceipt()
    ensures OnlyReceipt(W5, HOST, "run", "attempt") && LiveAttempt(PERSISTED.attempts["attempt"])
  {
  }

  // Dispatch, persist, acquire, ready, apply, interrupt, crash, recover: nothing is pending.
  lemma InterruptionHidesADelivery() returns (ws: seq<World>, acts: seq<Action>)
    ensures Trace(ws, acts) && Init(ws[0])
    ensures acts == CALLS + [Interrupt("run", "attempt"), Crash("owner"), RunRecovery(HOST, "run", true)]
    ensures Hidden(ws[7], HOST, "run")
  {
    AppliedOnlyReceipt();
    InterruptHides(W5, HOST, "run", "attempt");
    ws, acts := CrashAndRecover(W5, After(W5, Interrupt("run", "attempt")), Interrupt("run", "attempt"), HOST, "run", "owner");
    AppliedThen(ws, acts);
    ws, acts := PREFIX + ws[1..], CALLS + acts;
  }

  lemma Crashes(w: World, owner: string) returns (crashed: World)
    ensures Next(w, Crash(owner), crashed) && crashed.store == w.store
  {
    crashed := w.(tickets := w.tickets - {owner});
  }

  lemma Recovers(w: World, host: Host, r: string) returns (recovered: World)
    ensures Next(w, RunRecovery(host, r, true), recovered)
  {
    recovered := w.(store := Recover(w.store, host, r, true).0);
  }

  lemma CrashAndRecover(w: World, w': World, act: Action, host: Host, r: string, owner: string)
    returns (ws: seq<World>, acts: seq<Action>)
    requires Next(w, act, w') && Hidden(w', host, r)
    ensures acts == [act, Crash(owner), RunRecovery(host, r, true)]
    ensures Trace(ws, acts) && ws[0] == w && Hidden(ws[2], host, r)
  {
    var crashed := Crashes(w', owner);
    var recovered := Recovers(crashed, host, r);
    ws, acts := [w, w', crashed, recovered], [act, Crash(owner), RunRecovery(host, r, true)];
    ThreeSteps(ws, acts);
  }

  lemma ThreeSteps(ws: seq<World>, acts: seq<Action>)
    requires |ws| == 4 && |acts| == 3
    requires Next(ws[0], acts[0], ws[1]) && Next(ws[1], acts[1], ws[2]) && Next(ws[2], acts[2], ws[3])
    ensures Trace(ws, acts)
  {
    assert StepAt(ws, acts, 0) && StepAt(ws, acts, 1) && StepAt(ws, acts, 2);
  }

  // ---- A ticket that outlives its Run ----

  const NEXT := RunRows(RUN, None, map[], map["step" := Step(1, StepState.Ready, None)])
  const W5' := W4.(store := GiveUpRun(W4.store, "run"))
  const W6 := W5'.(store := WithRows(W5'.store.(leases := map["worktree" := Lease("project", "next")]), "next", NEXT))
  const W7 := W6.(store := W6.store.(live := map["workspace" := APPLIED]))

  lemma Abandoned()
    ensures Next(W4, Abandon("run"), W5') && W5'.store.leases == map[] && W5'.store.live == map["workspace" := TREE]
    ensures W5'.store.runs.Keys == {"run"} && W5'.store.workspaces == map["workspace" := Workspace("project", "worktree", 1)]
  {
  }

  lemma NextIsFresh()
    ensures FreshRun(W5'.store, "next", NEXT) && StartRun(W5'.store, "next", NEXT) == Some(W6.store)
  {
    Abandoned();
    assert W5'.store.leases["worktree" := Lease("project", "next")] == map["worktree" := Lease("project", "next")];
  }

  lemma Restarted()
    ensures Next(W5', Start("next", NEXT), W6)
  {
    NextIsFresh();
  }

  lemma AppliedLate()
    ensures Next(W6, APPLY, W7)
  {
    Abandoned();
    assert W6.store.live["workspace" := APPLIED] == map["workspace" := APPLIED];
  }

  lemma NextIsHidden()
    ensures Hidden(W7, HOST, "next")
  {
    assert W7.store.runs["next"] == NEXT && Observe(W7.store, "workspace") == APPLIED;
    LostIsHidden(W7, HOST, "next");
  }

  lemma StaleOwnerRuns(i: nat)
    requires i < 7
    ensures Next(STALE[i], STALE_CALLS[i], STALE[i + 1])
  {
    if i < 4 { DeliveryRuns(i); } else if i == 4 { Abandoned(); } else if i == 5 { Restarted(); } else { AppliedLate(); }
  }

  lemma StaleOwnerTrace()
    ensures Trace(STALE, STALE_CALLS)
  {
    forall i | 0 <= i < 7 ensures StepAt(STALE, STALE_CALLS, i) { StaleOwnerRuns(i); }
  }

  const STALE := PREFIX[..5] + [W5', W6, W7]
  const STALE_CALLS := CALLS[..4] + [Abandon("run"), Start("next", NEXT), APPLY]

  // The owner was told to go ahead, its Run is abandoned, the next Run starts in the worktree, and
  // the patch lands there: recovery of the next Run finds nothing pending on a tree it never recorded.
  lemma StaleOwnerWritesIntoTheNextRun() returns (ws: seq<World>, acts: seq<Action>)
    ensures acts == [DISPATCH, PERSIST, ACQUIRE, READY, Abandon("run"), Start("next", NEXT), APPLY]
    ensures Trace(ws, acts) && Init(ws[0]) && Hidden(ws[7], HOST, "next")
  {
    StaleOwnerTrace();
    ws, acts := STALE, STALE_CALLS;
    Dispatched();
    NextIsHidden();
  }
}
