# Kernel verification

This project models the durable work protocol of the Kernel and the algorithms around
it, and proves what they promise. `dafny verify dfyconfig.toml` checks everything.

## What is modelled

**Owner Delivery** (`KernelRows`, `WorktreeAuthority`, `Delivery`, `RunLifecycle`, `KernelStore`;
`StoreConditions`, `WorkspaceLock`, `DeliveryConditions`, `PendingReport`, `DeliveryRecovery`,
`DeliveryAnswers`; `DeliveryProtocol`, `DeliveryEvidence`, `DeliverySafety`, `FenceExclusion`,
`DeliveryWitness`, `DeliveryCompletion`).
A worker's patch is applied to the owner's workspace under a fenced lock and a snapshot
check, recorded with a revision and a provenance row, and then the worker's report is
settled. `Delivery` gives each control-plane call as a function on the persisted rows and
`RunLifecycle` the start, lease, block, resume and end of a Run. `KernelStore` is the store as
a class whose methods update those rows in place; each is proved to make exactly that
transition. When a call succeeds and what it leaves is said again from the rows, the
clock and the workspace alone: leases and stale locks in `StoreConditions`, the lock in
`WorkspaceLock`, the fence and the record in `DeliveryConditions`, a report that is due in
`PendingReport`, and the answers of restart recovery in `DeliveryRecovery` and
`DeliveryAnswers`. `DeliveryProtocol` is the step system: any caller makes any call with any
arguments at any time, interruptions, failed steps, new plans, direct reports, plain
observations and the life of Runs among them; a ticket holder and a direct edit may leave any
tree behind, and a crash loses only the ticket. `DeliveryEvidence` names the steps that make
recovery stop counting a receipt, `DeliverySafety` and `FenceExclusion` hold the results over
whole runs, `DeliveryWitness` the runs in which a delivery is hidden and `DeliveryCompletion`
one that is recorded, settled and waved through.

**Reporting** (`ReportProtocol`, `ReportConditions`, `ReportSafety`, `ReportWitness`, `ReportStore`, `WriterFence`).
Inspect, bind, prove, checkpoint, settle, journal, finish, by any number of processes at once,
each of which may crash between two writes. The results do not use the run lease.
`ReportConditions` says what each stretch of a call answers, and on which ground, from the
rows, the steps and the workspace alone. `ReportStore` is the attempt rows as a class with
their write-once updates; each stretch of the call makes one step of the protocol.
`WriterFence` is about the Host-owned worker that keeps others out, and `ReportWitness` holds
the runs that show the exceptions.

**Proofs** (`VerificationSettlement`, `ProofPlanner`, `ProofDemand`, `ProofQueue`, `ReportProofs`). Which proofs
a report plans, in which order and on which ground, when it stops early, that the
report-local cache cannot be told from plain execution, what the queue leaves in terms of the
runs of its commands, and which obligations a whole report executes.

**Algorithms.** The canonical printer, its inverse and the very text it writes (`ContextReceipt`, `CanonicalText`); the glob
compiler against a reading of its output as a pattern (`RegExpPattern`, `PathScope`) and
the order on scopes and what it says about matching (`ChangeContract`, `ScopeInclusion`); the dependency closure (`RuntimeDependencies`);
the context builder (`ContextBuild`); guidance compaction (`CapabilityGuidance`);
stagnation (`OptionalCapabilities`); path identity (`PathComponents`, `PathIdentity`,
`CrossSurface`);
legacy cleanup (`LegacyHydrationCleanup`). `Prelude`, `Sorting`, `OrderedMap` and `JsText`
hold what they share: results, the stable sort, the insertion-ordered map and text as
UTF-16 code units.

## Where the code differs from what one would expect

For each, lemmas give the exact condition, or the inputs that show it, or both.

- Recovery waves through an applied, unrecorded delivery once its receipts are no longer
  counted: interrupting the attempt, replacing the plan or giving the step to another
  workspace does that, and none of the three looks at the fence (`MissedIff`,
  `CountedUnlessLost`, `ResumedOnlyIfLost`, `InterruptionHidesADelivery`).
- The mutation revision counts observed changes as well as records, so two consecutive
  deliveries need not join (`RevisionCountsMoves`, `RecordsFormAChain`).
- Failing, starting or completing a step asks nothing of its state, so a passed step can be
  taken back and settled again with another digest (`PassedStepLeavesIff`,
  `PassedStepSettlesOnce`, `PassedStepStays`, `FailedStepSettlesAgain`).
- The external-writer fence is opened from outside: failing the step of a live Host-owned
  worker ends its attempt while the worker runs, and so do a failed usage receipt and a
  refused admission that name it (`WriterLeavesIff`, `FailsTheLatestLive`,
  `FailingOpensTheFence`). A call that was past the fence before the worker began is not
  stopped (`OnlyEarlierCallsGoOn`).
- The ready check outlives its Run: an owner told to apply may do so after its Run was
  abandoned and the next one started in the worktree (`ForeignApplyIsStale`,
  `StaleOwnerWritesIntoTheNextRun`).
- A second cleanup does change something when one file is listed twice, first with a wrong
  checksum and then with its own, or when an entry names a directory that the first call
  empties: the first call reports a conflict that is gone afterwards
  (`SecondRunChangesNothingIff`, `ListedTwiceDiffers`, `ListedDirectoryDiffers`).
- A truncated context block stays within the stable budget only for budgets of at least six
  tokens. For smaller ones the slice end is negative and keeps most of the text, and the
  policy loader accepts such budgets (`TruncatedFitsIff`).
- A revision that names its own class is taken at its word, whatever paths it declares
  (`AcceptedStaysWithinIff`, `SelfNamedWidens`). The scope guard compares the allowed and
  forbidden paths as one list, so a revision may allow what was forbidden without counting
  as an extension (`AllowedNeverWidensIff`, `SwappedContract`), and dropping every path is
  none either (`DroppingAllPathsWidens`).
- A scope within another may admit targets the other does not, when the other holds a
  wildcard before its closing stars (`ContainmentIsInclusionIff`). A closing double star
  takes the wildcards before it literally (`ClosingStarsAreTheGlobIff`,
  `StarInAClosedScope`), and a closing single star admits every depth below its prefix
  (`ClosingStarCrossesSegments`).
- An owner report repeated without attempt id or operation key after the workspace drifted
  is not recognised as a repetition and proves again (`AdmittedAgainIff`,
  `DriftedRetransmissionProvesAgain`).
- Cross-surface path identity is neither reflexive on all paths nor transitive
  (`CrossSurfaceReflexiveIff`, `CrossSurfaceCarriesIff`, `CrossSurfaceIsNotTransitive`,
  `BreaksBehindAMount`, `BreaksBeforeAPlainPath`).

## How values are modelled

Clocks, tokens and revisions are unbounded naturals. Identities and digests are opaque and
equal exactly when what they identify is equal. Text is a sequence of 16-bit units; case
folding is a function on single units, given as a parameter together with what is needed of
it (it keeps slashes, dots or wildcards). Locale order is any total preorder. File systems,
Git, process execution and parsing are parameters: functions that answer the same question
the same way.

## Model

| member | source | states |
|---|---|---|
| WorktreeAuthority.OneLiveRunPerWorktree | src/contracts/worktree-authority.ts:185-223 | Two Runs that both pass the mutation check for one worktree are the same Run unless one is completed. |
| WorktreeAuthority.MutationAllowedIff | src/contracts/worktree-authority.ts:143-223 | A session may mutate for a Run exactly when the Run is of its project and worktree, or of its workspace where it has no worktree, and is at its end or holds the lease. |
| StoreConditions.TakableIff | src/kernel/state-store.ts:804-827 | A lease can be taken exactly when nobody holds it, the Run itself does, or a Run that is gone or at its end. |
| StoreConditions.SweepKeepsLocksInUse | src/kernel/state-store.ts:753-779 | Of the locks of a project exactly those stay that have time left and are held by the active Run of their workspace. |
| WorkspaceLock.LockGoesToOneHolder | src/kernel/state-store.ts:3527-3612 | The call is refused exactly for an unregistered caller, answers exactly the live row of another holder or session, and otherwise grants the lock. |
| FenceExclusion.FenceExcludesOthers | src/kernel/state-store.ts:3548-3553 | In every run of the whole system: after a successful fence no other Run and no other session is fenced on that workspace before the row expired, its owner released or took it anew, or its Run was blocked or ended. |
| FenceExclusion.StepKeepsHold | src/kernel/state-store.ts:753-779 | Every step keeps a live fence but those: expiry, release, taking it anew, blocking, recovery and the end of its Run. |
| DeliveryConditions.CheckPassesIff | src/kernel/run/mutation-guard.ts:317-471 | The ordered checks pass exactly when the Run runs here with its lease, owns its lock, stands at its snapshot and finds the tree the phase asks for. |
| DeliveryConditions.CheckReasonIsTrue | src/kernel/run/mutation-guard.ts:317-471 | The reason of a failed check is true of the rows and the workspace. |
| DeliveryConditions.RecordSucceedsIff | src/kernel/control-plane.ts:2448-2552 | The exact condition of a successful record, and the store it leaves. |
| DeliveryConditions.FenceTakenIff | src/kernel/control-plane.ts:2195-2296 | The exact condition of a fence. |
| DeliveryConditions.FenceRenewedIff | src/kernel/control-plane.ts:2297-2389 | The exact condition of a renewal. |
| DeliveryConditions.ReadyIff | src/kernel/control-plane.ts:2390-2447 | The exact condition under which the owner is told to apply. |
| PendingReport.AwaitsReportIff | src/kernel/control-plane.ts:2627-2680 | A delivery is pending exactly when one live, whole receipt of a Host-owned worker rebuilds the report it was handed in with and the mutation on record, one revision after its base, with its step running or its proof journalled. |
| PendingReport.PendingDeliverySettlesIff | src/kernel/control-plane.ts:4099-4310 | The mutation handed out for a pending delivery settles from the stored rows alone, exactly under a guarded proof and the fence of the session itself on the delivered tree. |
| KernelStore.KernelStateStore.AcquireWorkspaceMutationLock | src/kernel/state-store.ts:3527-3612 | A registered caller whose workspace carries an unexpired row of another Run or another session gets exactly that row back and nothing changes; otherwise it gets the lock, with the next token after the workspace epoch and the row it replaces; an unregistered caller is refused. |
| KernelStore.KernelStateStore.ReleaseWorkspaceMutationLock | src/kernel/state-store.ts:3614-3650 | The row goes exactly for its holder, session and token; the epoch stays, so tokens never repeat. |
| KernelStore.KernelStateStore.ObserveWorkspaceIdentityCAS | src/kernel/state-store.ts:1461-1508 | Answers the observed identity and moves the revision only when the recorded identity and revision still match. |
| KernelStore.KernelStateStore.AcquireOwnerWorkspaceMutationFence | src/kernel/control-plane.ts:2195-2296 | The fence is taken exactly by the active Run of this workspace that holds the lease, stands at its snapshot, finds the tree the phase asks for and meets no live lock of another; a refusal drops at most its own row and raises at most the epoch. |
| KernelStore.KernelStateStore.RenewOwnerWorkspaceMutationFence | src/kernel/control-plane.ts:2297-2389 | The same token is extended exactly for the session whose unexpired lock it is and whose Run still stands at its snapshot; a rejected snapshot keeps the extension. |
| KernelStore.KernelStateStore.RecordOwnerWorkspaceMutation | src/kernel/control-plane.ts:2448-2552 | A record succeeds exactly for the active Run of this workspace with its lease, its unexpired lock, its revision, identity and HEAD, on a tree that is the integrated one and another than before, clean or dirty; then revision, identity and provenance move together, and otherwise nothing changes. |
| KernelStore.KernelStateStore.ReconcileOwnerMutationProvenance | src/kernel/persistence/work-attempt-store.ts:724-763 | Only the provenance row of that Run may differ, and only by a link: an unlinked current mutation is linked to a settled owner report exactly when that report is the only one that explains it; a link is never changed. |
| KernelStore.KernelStateStore.BlockDeliveryMaterialization | src/kernel/control-plane.ts:2557-2571 | An active Run becomes blocked and keeps its revision, identity, attempts, steps and provenance; of the locks of its project exactly those in use stay; an inactive Run, and the rows of every other Run, are unchanged. |
| KernelStore.KernelStateStore.RecoverPendingDeliveryMaterialization | src/kernel/control-plane.ts:2689-2825 | Nothing is pending exactly for an inactive Run, with nothing of a delivery persisted, or on the recorded tree with a settled delivery; in progress is answered exactly under the unexpired lock of the Run itself for an apply in doubt or a recorded delivery with an open step; report pending exactly without it when the only receipt still awaits its report; every other answer blocks the Run. |
| KernelStore.KernelStateStore.SettleParallelResult | src/kernel/control-plane.ts:4040-4329 | A result is admitted exactly when the Run stands one revision after the attempt on the delivered tree, the recorded mutation is the one named, the step is open in the worker's workspace and the receipt is the attempt's own; then that step and that attempt move and no other row, and a rejection changes nothing. |
| DeliveryProtocol.CasFacts | src/kernel/run/mutation-guard.ts:317-471 | What a passed snapshot check lets an owner conclude: the lock row, revision, identity, head and lease are its own at that moment. |
| KernelStore.KernelStateStore.ObserveWorkspaceIdentity | src/kernel/state-store.ts:1403-1454 | Only that Run's identity, revision and provenance may differ: the revision rises by one exactly when a known identity is replaced by another; a claim refreshes the provenance. |
| KernelStore.KernelStateStore.InterruptAttempt | src/kernel/control-plane.ts:1271-1281 | A live attempt is interrupted and its step keeps its state; any other call changes nothing. |
| KernelStore.KernelStateStore.FailStepAttempt | src/kernel/run/work-cursor.ts:460-475 | The attempt is finished and the step failed, whatever state it was in. |
| KernelStore.KernelStateStore.ReplaceRunPlanAtomic | src/kernel/persistence/work-store.ts:258-350 | At the expected plan revision and with fresh step ids, exactly the unsettled steps of the old plan are superseded, the others kept and the new ones added; otherwise nothing changes. |
| KernelStore.KernelStateStore.ClaimWorktreeLease | src/kernel/state-store.ts:804-827 | A lease is granted exactly when it is free, already this Run's, or held by a Run that is gone or terminal; a refusal changes nothing. |
| KernelStore.KernelStateStore.CreateRun | src/kernel/state-store.ts:888-937 | A new Run and its lease are inserted together, or neither when another live Run holds the worktree. |
| KernelStore.KernelStateStore.AcquireWorktreeMutationLease | src/kernel/state-store.ts:3241-3267 | Only an active Run takes the lease of its own worktree, and only when it is free. |
| KernelStore.KernelStateStore.ResumeBlockedRun | src/kernel/state-store.ts:1214-1238 | A blocked Run becomes active with the lease claimed first; a conflict changes nothing. |
| KernelStore.KernelStateStore.ReleaseWorktreeMutationLease | src/kernel/state-store.ts:3274-3305 | Only the terminal holder of a lease gives it back. |
| KernelStore.KernelStateStore.PersistAcceptedCompletion | src/kernel/state-store.ts:4337-4377 | The completed Run gives up exactly its leases and the locks of the project that are not in use, and exactly its steps that were never started are cancelled. |
| KernelStore.KernelStateStore.AbandonRun | src/kernel/state-store.ts:3308-3356 | An abandoned Run gives up exactly its own lease and its own lock; a terminal one stays as it is. |
| KernelStore.KernelStateStore.SweepStaleLocks | src/kernel/state-store.ts:753-779 | Of the locks of a project exactly those stay that have time left and are held by the active Run of their workspace. |
| KernelStore.KernelStateStore.ReconcileTerminalLifecycle | src/kernel/state-store.ts:2291-2297 | Of the leases of a project exactly those of terminal Runs go, and with them its stale locks. |
| DeliveryRecovery.ReconcileLinksIff | src/kernel/persistence/work-attempt-store.ts:724-763 | The mutation is linked to a report exactly when it is the Run's current one and that report is the only settled owner report explaining it. |
| DeliveryRecovery.ReconcileOnlyLinks | src/kernel/persistence/work-attempt-store.ts:724-763 | Reconciling changes nothing but the link, and a second time nothing at all. |
| DeliveryRecovery.NothingIff | src/kernel/control-plane.ts:2689-2825 | For every state of the store: recovery of an active Run answers that nothing is pending exactly when no receipt in doubt is still counted and no unexplained mutation is on record, or the live tree is the recorded one and the delivery that produced it is complete, reconstructing and settled. |
| DeliveryRecovery.MissedIff | src/kernel/control-plane.ts:2745-2825 | On a tree that is not the recorded one the answer is given exactly when every receipt in doubt is lost - interrupted, planned away or given away - and no unexplained mutation is left. |
| DeliveryRecovery.RecoveryTouches | src/kernel/control-plane.ts:2689-2825 | Recovery rewrites nothing but the link of its Run's provenance and, when it blocks, its status and the stale locks of the project. |
| DeliveryAnswers.InProgressIff | src/kernel/control-plane.ts:2762-2814 | An active Run is told to wait exactly under its own unexpired lock: on a diverged tree with a counted receipt at its revision, or with a complete, reconstructing recorded delivery whose step is open. |
| DeliveryAnswers.ReportPendingIff | src/kernel/control-plane.ts:2812-2821 | A report is left to be settled exactly without that lock, when the only receipt of such a delivery is one of a Host-owned worker that awaits it. |
| DeliveryAnswers.EveryOtherAnswerBlocks | src/kernel/control-plane.ts:2689-2825 | Every other answer but that nothing is pending blocks the Run, and no other does. |
| DeliveryAnswers.BlockReasonIsTrue | src/kernel/control-plane.ts:2765-2824 | The reason given for blocking is true of the rows and the workspace. |
| DeliveryAnswers.ApplyInDoubtAnswer | src/kernel/control-plane.ts:2765-2780 | On a diverged tree with a counted receipt the Run waits under its own lock and is blocked without it. |
| Delivery.SettlementIff | src/kernel/control-plane.ts:4140-4310 | The ordered checks admit a settlement exactly when all its conditions hold. |
| Delivery.RejectionIsTrue | src/kernel/control-plane.ts:4140-4310 | The reason of a rejected settlement is true of the rows, the workspace and what was handed in. |
| DeliveryProtocol.StepKeepsInv | src/kernel/control-plane.ts:2195-2555 | Every call, apply, edit, crash, interruption, failed step, new plan, report and observation, and every start, lease, block, resume, completion, abandonment and sweep keeps: a Run that is not terminal holds the lease of the worktree it is registered in, and a ticket names the workspace of its Run. |
| DeliveryProtocol.ReachableInv | src/kernel/control-plane.ts:2195-2825 | The same holds after any run of any interleaving. |
| DeliveryProtocol.WorktreeHasOneLiveRun | src/contracts/worktree-authority.ts:185-223 | In every reachable state, Runs starting and ending at any time, a worktree has at most one Run that is not terminal. |
| DeliveryProtocol.LeaseCheckAllowsTheLiveRun | src/contracts/worktree-authority.ts:185-223 | In every reachable state the mutation check passes for a Run that is not terminal exactly when the session is in its worktree and project. |
| RunLifecycle.BlockedRunResumes | src/kernel/state-store.ts:1214-1238 | A blocked Run has kept its lease, so resuming it never meets a conflict. |
| RunLifecycle.ClaimKeepsBound | src/kernel/state-store.ts:804-827 | Claiming takes no lease from a Run that is not terminal. |
| DeliveryEvidence.CountedUnlessLost | src/kernel/control-plane.ts:2706-2724 | Of all steps, exactly these stop recovery from counting a worker's attempt at the current revision: interrupting it, by a call or by a failed usage receipt or refused admission that names it, replacing the plan, giving its step to another workspace, recording a delivery or observing a changed tree. |
| DeliveryEvidence.StepKeepsGuard | src/kernel/control-plane.ts:2195-2825 | While a Run's ledger and workspace are left to its deliveries, every step keeps: a diverged tree and every ticket have persisted evidence, until the Run is terminal. |
| DeliverySafety.RecoveryIsSafe | src/kernel/control-plane.ts:2689-2825 | For every Run, there at first or started later: in every state reached with no interruption, failed or restarted step, new plan, direct report or plain observation on that Run and no write to its workspace but by its own deliveries - dispatches, receipts, fences, applies, records, settlements, recoveries, crashes, blocking and resuming in any order, and anything at all on other Runs - recovery answers that nothing is pending only if the live tree equals the recorded identity and a recorded delivery is complete, reconstructing and settled. |
| DeliverySafety.ForeignApplyIsStale | src/kernel/control-plane.ts:2390-2447 | An apply into a live Run's workspace with another Run's ticket is one whose Run has ended since the ready check. |
| DeliverySafety.NothingMeansSettledOrNothingPersisted | src/kernel/control-plane.ts:2689-2825 | In any state whatever, a Run that is waved through has its recorded delivery settled, and on another tree has nothing persisted of one. |
| DeliverySafety.ResumedOnlyIfLost | src/kernel/control-plane.ts:2706-2825 | In every run of the whole system, interruptions, failures, replanning, reports, observations and edits included: a diverged Run with a counted receipt is waved through later only if that receipt was lost by a named step in between. |
| DeliverySafety.UnrecordedApplyIsNeverResumed | src/kernel/control-plane.ts:2689-2825 | A receipt persisted, its patch applied and not recorded: however many crashes and whatever else happens, recovery of the still active Run answers to wait exactly while its own fence lasts and blocks it from then on, unless that receipt was interrupted, planned away or given away. |
| DeliverySafety.CrashedApplyEndsBlocked | src/kernel/control-plane.ts:2765-2780 | With no fence taken anew and the old one expired, as after a crash, recovery always blocks that Run. |
| DeliverySafety.SettledDeliveryResumes | src/kernel/control-plane.ts:2745-2825 | No false alarm: on the recorded tree a complete, reconstructing, settled delivery is waved through. |
| DeliveryWitness.InterruptionHidesADelivery | src/kernel/control-plane.ts:1271-1281 | The run dispatch, persist, acquire, ready, apply, interrupt, crash, recover, in which recovery answers that nothing is pending on the delivered, unrecorded tree. |
| DeliveryWitness.InterruptHides | src/kernel/control-plane.ts:1271-1281 | Interrupting the only receipt of any applied, unrecorded delivery hides it. |
| DeliveryWitness.ReplanHides | src/kernel/run/work-cursor.ts:558-590 | So does replacing the plan. |
| DeliveryWitness.RedispatchHides | src/kernel/persistence/work-attempt-store.ts:949-962 | So does giving the step to a second worker in another workspace. |
| DeliveryWitness.FailingHidesNothing | src/kernel/run/work-cursor.ts:460-475 | Failing the step does not: with the receipt still counted, recovery of the diverged Run answers to wait under its own fence and blocks it without. |
| DeliveryCompletion.RoutedDeliveryCompletes | src/kernel/control-plane.ts:2448-2825 | The run dispatch, persist, acquire, ready, apply, record on the dirty tree, settle, recover: recovery answers to wait before the record and before the settlement, and then that nothing is pending. |
| DeliveryWitness.StaleOwnerWritesIntoTheNextRun | src/kernel/state-store.ts:3308-3356 | The run dispatch, persist, acquire, ready, abandon, start of the next Run, apply, after which recovery of the next Run answers that nothing is pending on a tree it never recorded. |
| DeliverySafety.RecordedStep | src/kernel/control-plane.ts:2448-2552 | A successful record raises the revision by exactly one and leaves Run, live tree and integration identity equal, with the provenance of that patch. |
| DeliverySafety.SameRunUnlessMoved | src/kernel/control-plane.ts:2195-2555 | No step but a successful record or an observed change of that Run moves its revision or a known identity. |
| DeliverySafety.RevisionCountsMoves | src/kernel/state-store.ts:1403-1508 | From any point of any run on, the revision is that of the point plus the successful records plus the observed changes since. |
| DeliverySafety.NoTwoRecordsFromOneBase | src/kernel/control-plane.ts:2448-2552 | Two deliveries never commit from the same base snapshot: the later base revision is larger, whatever is observed in between. |
| DeliverySafety.RecordsFormAChain | src/kernel/control-plane.ts:2448-2552 | Consecutive records leave a gap of one per observed change; the next starts from the revision and identity the last produced exactly when no change was observed between them. |
| DeliverySafety.PassedStepLeavesIff | src/kernel/run/work-cursor.ts:460-475 | A passed step is never settled again, and it is taken back exactly by failing or restarting it. |
| DeliverySafety.PassedStepSettlesOnce | src/kernel/control-plane.ts:4040-4329 | A step that settled as passed settles again, crash or not, only if it was failed or restarted in between. |
| DeliverySafety.SettlementNeedsTheDelivery | src/kernel/control-plane.ts:2831-2892 | A worker settlement is accepted only one revision after its attempt, on the tree the owner mutation produced, for paths that mutation contains. |
| DeliverySafety.SupersededOwnerCannotRecord | src/kernel/control-plane.ts:2448-2552 | The owner of an earlier fence on a workspace can no longer record. |
| DeliverySafety.TokensGrow | src/kernel/state-store.ts:3555-3560 | Each fence on a workspace gets a larger token than every earlier one, whatever was released, expired or taken over in between. |
| DeliverySafety.AboveStays | src/kernel/state-store.ts:3555-3560 | Release, expiry and reacquisition never bring a token back. |
| ReportProtocol.FindKey | src/kernel/persistence/work-attempt-store.ts:390-445 | The attempt bound to an operation key, if any. |
| ReportSafety.InspectFacts | src/kernel/control-plane.ts:574-609 | What inspecting a payload tells about the attempt it answers: unseen, in progress, replay or conflict, each with its row. |
| ReportConditions.LedToIff | src/kernel/control-plane.ts:561-600 | A payload is about the attempt its operation key is bound to; without any name about the latest row of an owner it repeats on the unchanged tree; and else about the attempt it names. |
| ReportConditions.InspectionIff | src/kernel/control-plane.ts:574-609 | A payload conflicts exactly when another is bound to that attempt or its key is unknown, and is replayed exactly when its own result is there. |
| ReportConditions.BeginAnswers | src/kernel/control-plane.ts:4330-4371 | A call that begins is answered with a conflict, a refused receipt, the stored result or the writer at work, each exactly on its ground, and else goes on. |
| ReportConditions.EnterAnswers | src/kernel/control-plane.ts:4381-4416 | Under the lease the same answers come again, then the checkpoint of the attempt, and only then a fresh report. |
| ReportConditions.RecoverIff | src/kernel/control-plane.ts:4395-4413 | A checkpoint settles its step exactly while the Run stands where it was made and the step can be settled so. |
| ReportConditions.BindAnswers | src/kernel/control-plane.ts:4810-4831 | An attempt is bound by the first payload, or the same again while it has no result; another conflicts, and a result is replayed. |
| ReportConditions.CheckpointAnswers | src/kernel/control-plane.ts:5218-5273 | A checkpoint is journalled if there is none or the same, and its step then settles exactly if it can be. |
| ReportConditions.EnteredGoesOn | src/kernel/control-plane.ts:4381-4416 | A call under the lease always gets an answer or goes on. |
| ReportConditions.JournalAnswers | src/kernel/control-plane.ts:5375-5382 | A result is journalled if there is none or the same. |
| ReportConditions.FinishAnswers | src/kernel/control-plane.ts:5383-5401 | A running attempt takes the verdict and ends where its checkpoint was observed, unless it ended elsewhere, and the result is answered. |
| ReportConditions.SettleEarlyAnswers | src/kernel/control-plane.ts:4848-4860 | A report settled early journals its result and fails its attempt, a running one or one without a result; another result than the journalled one ends the call. |
| ReportConditions.CutOffLeaves | src/kernel/control-plane.ts:5218-5260 | A call cut off after the journal write leaves the checkpoint, and at most the step reporting. |
| ReportConditions.RevisionIff | src/kernel/control-plane.ts:1915-1931 | The contract is revised exactly while no Host-owned worker is at work. |
| ReportConditions.DirectiveIff | src/kernel/control-plane.ts:3750-3763 | A preparation says to reconcile exactly when recovery is blocked or a Host-owned worker is at work other than the one being settled. |
| ReportSafety.KeyLeadsHome | src/kernel/run/report-identity.ts:40-66 | A bound operation key belongs to exactly the attempt whose fields it names. |
| ReportSafety.StepKeepsInv | src/kernel/control-plane.ts:4381-5404 | Every write, settlement, crash, failed step and interruption keeps: a result is only journalled for a bound attempt, every answer given agrees with the journal, and keys name their own rows. |
| ReportSafety.TraceKeeps | src/kernel/control-plane.ts:4381-5404 | Along every run keys, digests, checkpoints, results, receipts and end identities are written once and never change. |
| ReportSafety.JournalledResultIsFinal | src/kernel/control-plane.ts:561-609 | Once a result is journalled, redelivering the payload answers exactly that result without a proof, any other payload for the attempt is a conflict, and a delivery that does not bring the stored receipt is rejected. |
| ReportSafety.OneResultPerAttempt | src/kernel/control-plane.ts:5375-5401 | Two answers ever given for one attempt, by any process, are the same result for the same payload. |
| ReportSafety.DifferentPayloadConflicts | src/kernel/run/report-identity.ts:68-84 | A different payload under a bound operation is a conflict at every later time. |
| ReportSafety.NamedReportsAreRecognised | src/kernel/control-plane.ts:574-600 | A report that brings the bound operation key, or no key and its attempt id, is led back to its attempt. |
| ReportSafety.NoProofAfterCheckpoint | src/kernel/control-plane.ts:4381-4416 | In every run: a proof for a checkpointed attempt is run by a call that was past the checkpoint test before the checkpoint was there, or that was let past it since because inspection led it elsewhere. |
| ReportSafety.NamedReportsProveNoMore | src/kernel/control-plane.ts:4381-4416 | When every redelivery brings its key or attempt id and no call is in flight, as after a crash, the attempt is never proved again. |
| ReportWitness.DriftedRetransmissionProvesAgain | src/kernel/control-plane.ts:574-600 | The exception, from any initial state: a direct report is proved and checkpointed, its process crashes, the workspace drifts, and the report repeated without id or key is proved a second time. |
| ReportSafety.AdmittedAgainIff | src/kernel/control-plane.ts:4381-4416 | A call is let past the checkpoint test of its own attempt exactly when inspection leads it to no attempt, or to one without a checkpoint. |
| ReportSafety.SettlesOnlyAtItsRevisions | src/kernel/control-plane.ts:5218-5260 | A report settles a step only from a journalled checkpoint whose plan and mutation revisions are the current ones. |
| ReportSafety.PassedStepLeavesIff | src/kernel/run/work-cursor.ts:515-541 | A passed step keeps its digest and end identity through every step of the system except exactly these: failing it, starting it again, or completing it with other values. |
| ReportSafety.PassedStepStays | src/kernel/run/work-cursor.ts:969-985 | Along every run digest and end identity stay exactly until the first such call. |
| ReportSafety.RepeatedSettlementAgrees | src/kernel/run/work-cursor.ts:967-976 | A report that settles a passed step again brings a pass, the same digest and the same end identity; any other is refused. |
| ReportWitness.FailedStepSettlesAgain | src/kernel/run/work-cursor.ts:460-475 | The run that shows it, from any start: a report passes a step, the step is failed, and another report passes it with another digest and end identity. |
| ReportSafety.StepEffects | src/kernel/control-plane.ts:4381-5404 | Only the proof step executes proofs, for the attempt its process is bound to. |
| WriterFence.OthersGetNowhere | src/kernel/control-plane.ts:360-378 | With no call in flight while a Host-owned attempt is live, any sequence of other sessions' calls hands out no directive but reconcile, runs no proof, leaves the contract revision, and moves a step only by a direct call on it. |
| WriterFence.OnlyEarlierCallsGoOn | src/kernel/control-plane.ts:4337-4367 | In every run: while a Host-owned attempt is live, whoever runs a proof, settles a step or is handed another directive than reconcile has been inside its call since before, or delivers a worker result; the contract revision stays. |
| WriterFence.WriterLeavesIff | src/kernel/control-plane.ts:360-378 | A live Host-owned attempt stops being live exactly by rejecting or interrupting it, by a failed usage receipt or refused admission that names it, by failing its step while it is the latest live attempt of that step, or by answering with its journalled result. |
| WriterFence.FailsTheLatestLive | src/kernel/run/work-cursor.ts:460-473 | Failing a step takes a live attempt exactly when it is the latest live one of that step. |
| ReportWitness.FailingOpensTheFence | src/kernel/run/work-cursor.ts:460-475 | The run, from any start: a worker is live and preparation says reconcile; its step is failed, and the same preparation hands out the directive it withheld. |
| ReportStore.WorkAttemptStore.BindStepAttemptReportOperation | src/kernel/persistence/work-attempt-store.ts:390-444 | Key and payload digest are bound together, once; the same values again are accepted, others change nothing. |
| ReportStore.WorkAttemptStore.CheckpointStepReport | src/kernel/persistence/work-attempt-store.ts:446-463 | A checkpoint is written once; the same one again is accepted, another changes nothing. |
| ReportStore.WorkAttemptStore.SetStepAttemptReportResult | src/kernel/persistence/work-attempt-store.ts:465-490 | A result is written once; the same one again is accepted, another changes nothing. |
| ReportStore.WorkAttemptStore.FinishStepAttempt | src/kernel/persistence/work-attempt-store.ts:1131-1173 | A live attempt takes the verdict and, once, the end identity; another end identity is refused, and a finished attempt keeps its own verdict. |
| ReportStore.WorkAttemptStore.FailStepAttempt | src/kernel/run/work-cursor.ts:460-475 | The step is failed whatever its state; of the attempts at most one changes, the latest live one of the step or else its latest, and an interrupted one stays interrupted. |
| ReportStore.WorkAttemptStore.SettleWorkStep | src/kernel/run/work-cursor.ts:938-985 | A passed step is compared and never settled again; any other takes the verdict, and a passing one the digest and identity. |
| ReportStore.WorkAttemptStore.BeginReport | src/kernel/control-plane.ts:4330-4371 | The call up to the lease, the receipt comparison of a delivery included, makes exactly the begin step of the protocol. |
| ReportStore.WorkAttemptStore.SettleVerifiedReport | src/kernel/control-plane.ts:4395-4413 | Settling from a journalled checkpoint makes exactly the recovery step: refused when the Run moved on, compared when the step passed. |
| ReportStore.WorkAttemptStore.BindReport | src/kernel/control-plane.ts:4810-4831 | Binding makes exactly the bind step: conflict, replay, or the row write. |
| ReportStore.WorkAttemptStore.CheckpointAndSettleReport | src/kernel/control-plane.ts:5218-5273 | Journalling the checkpoint and settling the step makes exactly the step of that name. |
| ReportStore.WorkAttemptStore.JournalResult | src/kernel/control-plane.ts:5375-5382 | Journalling the result makes exactly the journal step. |
| ReportStore.WorkAttemptStore.FinishReport | src/kernel/control-plane.ts:5383-5401 | Finishing the attempt and answering makes exactly the finish step. |
| VerificationSettlement.LevelsAgree | src/contracts/verification-settlement.ts:113-146 | The two derivations of an obligation's level agree. |
| VerificationSettlement.ScopeIff | src/contracts/verification-settlement.ts:104-128 | Unless a root proof is asked for, an obligation is focused exactly when declared so, or undeclared with a path named or an acceptance an evidence plan asks for, and integration exactly when declared so; every other is a goal. |
| VerificationSettlement.RankIsNoWider | src/contracts/verification-settlement.ts:130-134 | Focused ranks before integration before goal. |
| VerificationSettlement.NormalizeScopeMeans | src/contracts/verification-settlement.ts:39-43 | A normalised scope holds the trimmed non-blank entries, each once, in text order. |
| VerificationSettlement.AuthorityIsBestCandidate | src/contracts/verification-settlement.ts:35-102 | The authority is a candidate that names a path, from the best source and under it with the least reference, with its own scope and freshness; with none, the obligation itself if it names a path. |
| ProofPlanner.AddRequest | src/kernel/control-plane.ts:1082-1127 | One call keeps the queue: pushed once, or only forbidden to reuse evidence. |
| ProofPlanner.PushRequests | src/kernel/control-plane.ts:1143-1168 | The queue after all calls, or the hard obligation without a command that stopped it. |
| ProofPlanner.ProofRequestsForReport | src/kernel/control-plane.ts:1044-1169 | It fails exactly when a candidate's hard obligation has no command; otherwise the queue holds one request for each obligation an eligible call names, no integration or goal request before a focused one and no goal before an integration one, and requests of one scope keep the order of the calls that pushed them. |
| ProofDemand.QueueIsSound | src/kernel/control-plane.ts:1044-1169 | Whatever is queued is a hard obligation that is wanted, with the command selected for it, at its own settlement scope, and with the timeout, coverage, network policy and flaky rerun of the first ground it is due on; evidence is reused but for a flaky rerun and where a due hint asks for a fresh proof. |
| ProofDemand.DueIff | src/kernel/control-plane.ts:1127-1168 | The calls ask for exactly the hard, bound obligations that are open and belong to the work at hand, are named by their last hint and open or claimed to cover more, or are asked for afresh, wide ones only when no other step is open. |
| ProofDemand.UnprovableIff | src/kernel/control-plane.ts:1082-1096 | Planning stops exactly when a candidate has a wanted hard obligation without a command. |
| ProofDemand.FirstCallLeads | src/kernel/control-plane.ts:1082-1168 | A fresh proof makes the request only when no standing ground does, and then the first hint that asks for one. |
| ProofDemand.CallsInOrder | src/kernel/control-plane.ts:1127-1168 | Open obligations are asked for in their order, then newly claimed coverage, then fresh proofs in the order of the hints. |
| ProofPlanner.RequestedIsLastHint | src/kernel/control-plane.ts:1058 | Of several hints for one obligation the last one counts. |
| ProofPlanner.CallsAreExactlyAsked | src/kernel/control-plane.ts:1127-1168 | An obligation is asked for exactly when it is outstanding and due, named by a hint its coverage still needs, or asked for fresh. |
| ProofPlanner.OncePerRequest | src/kernel/control-plane.ts:1044-1169 | No request is queued twice. |
| ProofQueue.RunQueue | src/kernel/control-plane.ts:5005-5090 | With the report-local cache the queue ends exactly as without it, and what it leaves is said by the runs of the commands alone: each proof starts where the one before left the workspace but for drift, is recorded as passed exactly when the run that counts passed, a repeated one agreed and the workspace is as before, with the exit code of the command or one for a refused zero; the failures are the given ones and then those of the proofs not passed; the revision counts the changed observations; the queue ends with its last request, behind a failure of a narrower scope or at a refused command. |
| ProofQueue.ProveJob | src/kernel/control-plane.ts:5030-5062 | One request, shared or executed, leaves the world that executing it leaves. |
| ProofQueue.ExecutesAsRun | src/kernel/control-plane.ts:3560-3640 | Verdict, exit code, flakiness and mutation of one proof, from the runs of its command. |
| ProofQueue.ReuseIsExecution | src/kernel/control-plane.ts:3390-3485 | An entry that passes the reuse checks is what executing the request now would produce. |
| ProofQueue.CleanExecutionIsFaithful | src/kernel/control-plane.ts:199-242 | An execution remembered under a key stays faithful to that key. |
| ProofQueue.EarlyStopIsExact | src/kernel/control-plane.ts:5017-5022 | Counting the failures given before the queue: after a focused failure no integration or goal request is executed, after an integration failure no goal request, and nothing else is held back. |
| ProofQueue.GateRunsExactly | src/kernel/control-plane.ts:5017-5022 | The same from any point of the queue on, with failures only from queued requests. |
| ProofQueue.NoFailureRunsAll | src/kernel/control-plane.ts:5017-5022 | Without a failure every request is executed. |
| ReportProofs.ProveReport | src/kernel/control-plane.ts:4900-5090 | From the report to its executed proofs: it fails exactly when a candidate has a wanted hard obligation without a command, is rejected exactly when a due obligation claims a coverage that has no canonical form, and otherwise executes exactly the obligations that are due, not refused as judgments and not behind a failure of a narrower scope, each once and narrow scopes first; refused judgments lead the failures, and the rest is what the commands did. |
| ReportProofs.GateReadsAsReport | src/kernel/control-plane.ts:5017-5022 | The early stop over the queue, read as a statement about the obligations of the report. |
| ReportProofs.MiscoveredIff | src/kernel/control-plane.ts:4946-4966 | A queued request is malformed exactly when the leading ground of a due obligation claims a coverage without a canonical form. |
| ContextReceipt.CanonicalStringify | src/contracts/context-receipt.ts:4-24 | The recursive printer with its loop over sorted keys yields the canonical text, and nothing for undefined. |
| ContextReceipt.PrintPairs | src/contracts/context-receipt.ts:16-23 | The loop over keys collects the pairs of the defined members in key order. |
| ContextReceipt.StringReads | src/contracts/context-receipt.ts:4-7 | Reading a printed string, as section 7 of RFC 8259 says, gives the string back and stops at its quote. |
| ContextReceipt.PrintReads | src/contracts/context-receipt.ts:4-24 | Reading the printed text of any value gives its meaning and leaves the rest of the input. |
| ContextReceipt.SortedMeaning | src/contracts/context-receipt.ts:16-18 | The order of an object's members does not matter to its meaning. |
| ContextReceipt.SerialisedIdentifiesMeaning | src/contracts/context-receipt.ts:4-24 | Two values print alike exactly when they are equal after dropping undefined members, turning undefined items to null and ignoring key order. |
| CanonicalText.StringIsWritten | src/contracts/context-receipt.ts:4-7 | Which of the texts of a string is written: quote, backslash and five control units by their escapes, other control units and half surrogate pairs by four lower-case digits, and every other unit as itself. |
| CanonicalText.ObjectIsWritten | src/contracts/context-receipt.ts:16-23 | An object is written as its defined members in the order of their keys, with a colon, commas and no space. |
| CanonicalText.TextLeIsOrder | src/contracts/context-receipt.ts:16-18 | Keys are ordered by the first unit that differs, a prefix first. |
| ContextReceipt.DigestIsIdentity | src/contracts/context-receipt.ts:26-28 | Under a collision-free digest, equal digests mean equal meanings and back. |
| PathScope.EmbeddedGlobRegex | scripts/lib/path-scope.js:3-24 | The index loop emits the caret, the text of each token and the dollar sign. |
| PathScope.CompilingKeepsMeaning | scripts/lib/path-scope.js:3-24 | For every glob the emitted text is a pattern of section 22.2.1 of ECMA-262 and accepts exactly the targets its tokens denote. |
| PathScope.BodyParses | scripts/lib/path-scope.js:5-22 | The emitted text parses to the terms of the glob's tokens, with every syntax character escaped. |
| PathScope.TermsDenote | scripts/lib/path-scope.js:7-21 | Matching the terms from a position is what the tokens denote of the text from there. |
| PathScope.MatchPathScope | scripts/lib/path-scope.js:25-53 | The scan accepts exactly the targets admitted by one of the scopes, and everything when there is none. |
| PathScope.AdmitsMeans | scripts/lib/path-scope.js:28-50 | What one scope admits, case by case: everything, a prefix and what is under it, what is under it at any depth, what the glob denotes, or a plain path and what is under it. |
| PathScope.SpellingDoesNotMatter | scripts/lib/path-scope.js:25-27 | Neither the kind of slash nor the case of a letter tells two targets apart. |
| PathScope.ClosingStarsAreTheGlobIff | scripts/lib/path-scope.js:33-37 | For every prefix: the shortcut for a closing double star is its glob, but for the prefix itself and for line breaks below it, exactly when the prefix holds no wildcard. |
| PathScope.StarInAClosedScope | scripts/lib/path-scope.js:33-42 | The scope that shows it: src/*/** admits src/*/x and not src/a/x. |
| PathScope.ClosingStarCrossesSegments | scripts/lib/path-scope.js:33-42 | For every prefix, a closing single star admits every depth below it: all a closing double star admits except the prefix itself. |
| ChangeContract.CoversTransitive | src/kernel/change-contract.ts:34-43 | Coverage of one scope by another is transitive over all texts. |
| ChangeContract.WithinIsReflexive | src/kernel/change-contract.ts:34-43 | Containment is reflexive over all path lists. |
| ChangeContract.WithinIsTransitive | src/kernel/change-contract.ts:34-43 | Containment is transitive over all path lists. |
| ChangeContract.ListingsAreSets | src/kernel/change-contract.ts:29-32 | Comparing the sorted unique listings as JSON text is comparing the sets. |
| ChangeContract.ClarificationKeepsThePaths | src/kernel/change-contract.ts:75-124 | A revision is a clarification of its own accord exactly when it sets no flag and names the same allowed and forbidden paths. |
| ChangeContract.ClassifiedIff | src/kernel/change-contract.ts:75-124 | A named class stands; else a revision is a replacement exactly by its flags and an extension exactly by its flags or a path under none declared before. |
| ChangeContract.ChainsNeverWiden | src/kernel/change-contract.ts:92-107 | Along any chain of revisions classified as no extension, the last declared paths lie within the first, or some revision named a no-extension class itself. |
| ChangeContract.AcceptedStaysWithinIff | src/kernel/change-contract.ts:86-107 | Every revision with given class fields that is classified as no extension stays within the previous paths exactly when the fields do not name a no-extension class, or a bare star is among the previous paths. |
| ChangeContract.SelfNamedWidens | src/kernel/change-contract.ts:89-92 | The widening revision a self-named class lets through. |
| ScopeInclusion.ContainmentIsInclusionIff | src/kernel/change-contract.ts:34-43 | A scope admits whatever the scopes contained in it admit exactly when it holds no wildcard but closing stars. |
| ScopeInclusion.ContainedListsAdmitLess | scripts/lib/path-scope.js:25-53 | A non-empty scope list contained in a list of such scopes admits no more targets. |
| ScopeInclusion.DroppingAllPathsWidens | src/kernel/change-contract.ts:92-107 | Dropping every path counts as no extension, and a list without paths admits everything. |
| ChangeContract.AllowedNeverWidensIff | src/kernel/change-contract.ts:92-107 | Every revision the classifier itself accepts keeps its allowed list within the old allowed list exactly when the old forbidden paths already lie within it, because the check joins both lists. |
| ChangeContract.SwappedContract | src/kernel/change-contract.ts:92-107 | The revision that shows it: allowing what was forbidden is classified as no extension. |
| ChangeContract.WithinIsMatched | src/kernel/change-contract.ts:34-43 | A wildcard-free path contained in a declared list is accepted by the scope matcher for that list. |
| RuntimeDependencies.ResolveDependencyPackage | scripts/lib/runtime-dependencies.js:104-130 | The walk-up finds the nearest ancestor's package, or fails for an escape or a missing mandatory package. |
| RuntimeDependencies.NearestIsLongest | scripts/lib/runtime-dependencies.js:105-126 | Nearest means: offered by the longest prefix of the directory inside the root that offers it, and by none when none does. |
| RuntimeDependencies.CheckDeclared | scripts/lib/runtime-dependencies.js:135-138 | Passes exactly when every requested name is declared with a string version at the root. |
| RuntimeDependencies.MakeEntry | scripts/lib/runtime-dependencies.js:158-171 | A new package becomes a sound entry, or the failure found is real. |
| RuntimeDependencies.Advance | scripts/lib/runtime-dependencies.js:148-186 | One turn of the loop keeps the worklist facts and consumes an item or visits a new real directory, so the loop ends on cyclic trees too. |
| RuntimeDependencies.ResolveRuntimeDependencyEntries | scripts/lib/runtime-dependencies.js:131-188 | On success every requested name is declared with a string version, the entries carry the names they were asked for by and have distinct real paths inside the root, each is reachable from the requested names, every mandatory dependency of every entry and every optional one that is installed resolves to a recorded real path, and the list is sorted; a failure names something reachable that is at fault. |
| RuntimeDependencies.PlainNamesLandUnderNodeModules | scripts/lib/runtime-dependencies.js:162-165 | The last check cannot fail for a name with some component and no dots. |
| ContextBuild.AcceptLayer | src/kernel/context-build.ts:247-288 | A layer yields contents and entries of its allowed records and the omissions of the forbidden ones, or the first malformed record's failure. |
| ContextBuild.RecordIsNormalized | src/kernel/context-build.ts:95-180 | What an accepted record is made from: its own texts, an unknown revision and no source where those are missing or empty. |
| ContextBuild.InvalidIsNamed | src/kernel/context-build.ts:95-131 | What is wrong with a refused record. |
| ContextBuild.FitBudget | src/kernel/context-build.ts:295-314 | The loop keeps all required blocks and the stated prefix of the optional ones, and records the ids of the dropped ones. |
| ContextBuild.RebuildIncluded | src/kernel/context-build.ts:322-335 | The included list becomes the entries of the kept blocks, each id once. |
| ContextBuild.BuildKernelContext | src/kernel/context-build.ts:136-348 | The whole build: context and receipt, or its failure. |
| ContextBuild.KeepIsLongest | src/kernel/context-build.ts:300-314 | The kept prefix is the longest that fits: for every prefix, it fits exactly when it is no longer than the kept one and the required blocks fit. |
| ContextBuild.FailsIffRequiredExceeds | src/kernel/context-build.ts:315-320 | For well-formed records the build fails exactly when the required blocks alone exceed the stage budget. |
| ContextBuild.PromptIsLongestFit | src/kernel/context-build.ts:295-320 | The prompt is the required blocks and the longest fitting prefix of optional blocks, within the stage budget, and the token estimate is its own. |
| ContextBuild.TruncatedFitsIff | src/kernel/context-build.ts:184-206 | A truncated block costs at most the stable budget exactly when that budget is at least six tokens. |
| ContextBuild.NothingIsLost | src/kernel/context-build.ts:151-181 | Counted with repetition, every submitted id is in a kept block or omitted, for all inputs. |
| ContextBuild.ReceiptAccountsForEverything | src/kernel/context-build.ts:322-335 | Included ids are the ids of the kept blocks, each once; every submitted id is included or omitted and nothing else is; distinct ids end in exactly one of the two. |
| LegacyHydrationCleanup.ProjectDirectory.CleanFile | src/kernel/legacy-hydration-cleanup.ts:175-203 | One listed file is removed exactly when it exists, is physically contained, untracked and matches its checksum. |
| LegacyHydrationCleanup.ProjectDirectory.RemoveEmptyDirectories | src/kernel/legacy-hydration-cleanup.ts:215-228 | Only the empty legacy directories go, child before parent. |
| LegacyHydrationCleanup.ProjectDirectory.CleanupLegacyKernelHydration | src/kernel/legacy-hydration-cleanup.ts:99-244 | The new directory contents and the report, for every outcome including an unsafe entry met midway. |
| LegacyHydrationCleanup.ReadManifestIff | src/kernel/legacy-hydration-cleanup.ts:112-172 | The cleanup acts on a manifest that is a file in the project, parses and names this product, and answers every other case by its reason. |
| LegacyHydrationCleanup.OnlyListedFilesGo | src/kernel/legacy-hydration-cleanup.ts:175-228 | Whatever a call removes is the manifest, an empty legacy directory, or an untracked listed file that matches its checksum; all else is unchanged. |
| LegacyHydrationCleanup.ReportIsTrue | src/kernel/legacy-hydration-cleanup.ts:175-203 | Every reason reported for a kept file is true of it, and every listed file that existed is gone after the loop or reported as kept. |
| LegacyHydrationCleanup.ManifestGoesIff | src/kernel/legacy-hydration-cleanup.ts:205-213 | For entries in the root that do not name the manifest, it goes exactly when nothing conflicts. |
| LegacyHydrationCleanup.SecondRunChangesNothingIff | src/kernel/legacy-hydration-cleanup.ts:172-228 | A second call changes nothing and reports the same conflicts, or that nothing is hydrated, exactly when no conflicting entry is overtaken by an entry that removes the same file and none names a directory the first call empties. |
| LegacyHydrationCleanup.ListedTwiceDiffers | src/kernel/legacy-hydration-cleanup.ts:175-203 | Inputs that show the first exception, in any project directory: one file listed first with a wrong and then with its own checksum. |
| LegacyHydrationCleanup.ListedDirectoryDiffers | src/kernel/legacy-hydration-cleanup.ts:215-228 | Inputs that show the second exception: an empty legacy directory listed as a file. |
| LegacyHydrationCleanup.RefusalRepeats | src/kernel/legacy-hydration-cleanup.ts:104-170 | A call that stops before the list changes nothing and stops the same way again. |
| LegacyHydrationCleanup.RemovingTwiceIsRemovingOnce | src/kernel/legacy-hydration-cleanup.ts:215-228 | Removing the empty directories a second time removes none. |
| CapabilityGuidance.CompactCapabilityGuidance | src/kernel/capability-guidance.ts:74-148 | The map, the drops, the pass for duplicates and the two sorts yield the two specified lists. |
| CapabilityGuidance.ReviewTextNamesAspects | src/kernel/capability-guidance.ts:56-66 | There is a review text exactly when an aspect is active, and it contains the phrase of every active aspect. |
| CapabilityGuidance.CompactionConserves | src/kernel/capability-guidance.ts:81-147 | Every id of the input, repeated or not, ends exactly once in exactly one of the two lists. |
| CapabilityGuidance.CompactionSorts | src/kernel/capability-guidance.ts:142-146 | The selected list is sorted by priority and then id, the compacted list by id. |
| CapabilityGuidance.SelectedGuidanceIsDistinct | src/kernel/capability-guidance.ts:120-140 | Two selected entries share neither a guidance text nor an id. |
| CapabilityGuidance.SelectedSpeaksForReviews | src/kernel/capability-guidance.ts:105-140 | A selected review is the carrier and its aspects and text are those of all reviews asked for, with its other fields kept; any other selected entry is the last input entry with its id, unchanged; what is superseded is never selected. |
| CapabilityGuidance.AtMostOneReview | src/kernel/capability-guidance.ts:105-118 | At most one review capability is selected. |
| CapabilityGuidance.CompactionIsJustified | src/kernel/capability-guidance.ts:96-132 | Each recorded reason is true of the entry that was compacted, and its activation condition is kept. |
| OptionalCapabilities.DetectOptionalStagnation | src/contracts/optional-capabilities.ts:113-136 | Which of the four answers is given, exactly, and that the reported obligation is the first key of the map. |
| OptionalCapabilities.StagnationIsOldestOpenStreak | src/contracts/optional-capabilities.ts:122-130 | Some obligation is failing exactly when the map is not empty, and its first key is the obligation whose unbroken failing streak began first. |
| OptionalCapabilities.LastFailedMeansStreak | src/contracts/optional-capabilities.ts:122-126 | An obligation has an open streak exactly when its last verification failed. |
| OptionalCapabilities.ThresholdInForce | src/contracts/optional-capabilities.ts:67-73 | For every threshold: the two tests together demand the threshold, or three when it is zero and the capability was not asked for. |
| PathIdentity.SurfaceIdentityIsKeyEquality | scripts/lib/path-identity.js:68-83 | The three regimes of the relation are equality of one key per text. |
| PathIdentity.SurfaceIdentityIsAnEquivalence | scripts/lib/path-identity.js:68-83 | It is reflexive, symmetric and transitive over all texts. |
| PathIdentity.WindowsSuffix | scripts/lib/path-identity.js:29-48 | A valid Windows spelling's suffix is its components joined by single slashes. |
| PathIdentity.WindowsComponentIff | scripts/lib/path-identity.js:15-19 | Windows takes a component exactly when it is not empty, holds no forbidden unit, ends in no dot or space and names no device. |
| PathIdentity.DriveAtIff | scripts/lib/path-identity.js:50-67 | A mounted spelling has its drive letter below /mnt/ or below the root, with nothing or a slash and one line after it. |
| PathIdentity.WindowsIdentityIsComponents | scripts/lib/path-identity.js:68-76 | Two Windows spellings are one path exactly when drives and folded components agree. |
| PathIdentity.CrossMatchIsComponents | scripts/lib/path-identity.js:84-92 | A Windows and a mounted spelling match exactly when drives and folded components agree and no second slash follows the mounted drive; neither then holds a dot or two-dot component. |
| PathIdentity.CrossSurfaceIsSymmetric | scripts/lib/path-identity.js:84-104 | The cross-surface relation is symmetric. |
| PathIdentity.CrossSurfaceReflexiveIff | scripts/lib/path-identity.js:93-104 | A path matches itself exactly when it is rooted or has no blank at an end. |
| CrossSurface.CrossSurfaceCarriesIff | scripts/lib/path-identity.js:84-104 | For every chain of three spellings: the outer two match exactly under a condition on surfaces and components - two mounted ones agree letter by letter, a Windows and a plain one likewise, a mounted one behind a mounted one is tidy, and a plain one never meets a mounted one across Windows. |
| CrossSurface.BreaksBehindAMount | scripts/lib/path-identity.js:84-104 | A chain that breaks with a mounted spelling in the middle, because of a dot component. |
| CrossSurface.BreaksBeforeAPlainPath | scripts/lib/path-identity.js:84-104 | A chain that breaks because its first spelling has no drive identity. |
| PathIdentity.CrossSurfaceIsNotTransitive | scripts/lib/path-identity.js:84-104 | The three paths that show the relation is not transitive. |

## Left out

- Runs without a registered worktree, the move of a worktree to another project, the rollback of a Run that failed to start, and bringing an abandoned Run back by blocking or finalising it: terminal Runs stay terminal, and completed and abandoned are one state.
- KernelStore.KernelStateStore.SettleParallelResult: the run lease, the paths a capsule allows and the report's own proofs are not part of it; `ReportProtocol` and `ReportProofs` have the report.
- KernelStore.KernelStateStore.CreateRun: takes the observed identity as given in the new row; obligations and other columns of a Run are not part of the store.
- In `DeliveryProtocol` a direct report may write any row of its own session and any verdict, more than the program does; its own provenance row is written by its observation, not again when its attempt is finished.
- In `DeliveryProtocol` a worker's receipt is persisted for the attempt its running step executes, as the dispatcher does; the store alone would take a late one of a routed attempt, and a routed attempt begun without claiming its step is not part of the model.
- Attempt and step patches by `updateStepAttempt` and `attachAttemptLineage`: only what the program passes is modelled, receipts, workspace and the interruption by a failed usage receipt or a refused admission.
- ReportStore.WorkAttemptStore.FinishStepAttempt: does not write or link provenance, which `DeliveryProtocol` models with the delivery rows; of the receipt fields that finishing writes once it keeps the end identity.
- In `ReportProtocol` every state of a step before its report is one state, and an attempt has no mutation revision of its own.
- Failing observations of a workspace: only recovery has an unobservable case; elsewhere the observation succeeds.
- Interleavings inside one synchronous call: each store transaction and each control-plane call without a pause is one step.
- Structured step lists, capsules, judgments, waivers, knowledge and Git closeout: they do not decide the modelled protocol.
- `ReportProtocol` keeps the body of a report, its failures and its evaluation as opaque values; which verdict they lead to is an argument of the step.
- `ReportStore` has no method for admitting a fresh report and for executing its proofs: those steps are in `ReportProtocol` and `ReportProofs`.
- `ProofQueue` has no reuse of evidence from earlier reports and no guarded proof root; commands are functions of invocation and workspace, and a proof mutates the workspace only through its command.
- How often a command is really run: that a shared proof costs no second execution is not counted, only that it leaves what executing again would leave.
- Evidence files, command output, timeouts as events and telemetry.
- Contract preflight, obligation compilation and the choice of a command for an obligation: `ProofPlanner` takes the choice as a function.
- `normalizeChangedContract`: the changed file count is a plain maximum.
- Functions, symbols and big integers in canonical printing, and the sign of negative zero, which JSON text does not show.
- `RuntimeDependencies`: native-addon probes, and links that make a real path unreadable between two calls; the file system answers the same throughout.
- `ContextBuild`: the rendering of principles, contract and content to text, redaction included, is a parameter; so is the test for forbidden types.
- `LegacyHydrationCleanup`: what lies behind a link is fixed during a call, so neither a file removed inside the root nor a directory removed through a link changes it; malformed file lists throw in the source and are not modelled.
- LegacyHydrationCleanup.SecondRunChangesNothingIff: with `ManifestGoesIff` it is about manifests whose entries lie in the root and do not name the manifest itself.
- Full Unicode case mapping, where lower-casing changes the length of a text.
- Device paths and other Windows forms of `path.win32.normalize`: only drive-absolute texts reach it in the modelled code.
