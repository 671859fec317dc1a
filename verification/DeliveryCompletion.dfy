/** Runs in which a delivery is recorded and settled, and what recovery answers on the way. */
module DeliveryCompletion {
  import opened Prelude
  import opened KernelRows
  import opened Delivery
  import opened DeliveryRecovery
  import opened PendingReport
  import opened DeliveryConditions
  import opened DeliveryAnswers
  import opened DeliveryProtocol
  import opened DeliverySafety
  import opened DeliveryWitness

  // ---- A routed worker's delivery, from the applied patch on ----

  const MUTATION := Provenance("project", Some("workspace"), "source", 1, {"file"}, "delivered", "digest", None)
  const RUN1 := RUN.(mutationRevision := 1, currentIdentity := Some("delivered"))
  const RECORDED := PERSISTED.(run := RUN1, provenance := Some(MUTATION))
  const SETTLED := RECORDED.(
    attempts := map["attempt" := RECEIVED.(status := PassedAttempt, finished := true)],
    steps := map["step" := RUNNING.(state := Passed)])

  const RECORD := Record(HOST, "run", SNAPSHOT, "session", 1, PATCH)
  const DELIVERED := DeliveryMutation(0, "recorded", "delivered", "delivered", 1, true, {"file"}, "digest")
  const PAYLOAD := WorkerPayload("attempt", "step", "worker", None, None, {"file"})
  const SETTLE := Settle(HOST, "run", PAYLOAD, DELIVERED, RECEIPT, false, Some(true))
  const RECOVER := RunRecovery(HOST, "run", true)

  const R6 := World(StoreOf(RECORDED, 1, LOCKS, APPLIED), TICKETS)
  const R7 := World(StoreOf(SETTLED, 1, LOCKS, APPLIED), TICKETS)

  lemma CanRecord()
    ensures Recordable(W5.store, HOST, "run", SNAPSHOT, "session", 1, PATCH)
  {
  }

  lemma RecordTakes()
    ensures Next(W5, RECORD, R6)
  {
    CanRecord();
    RecordSucceedsIff(W5.store, HOST, "run", SNAPSHOT, "session", 1, PATCH);
    RecordStep(W5, R6.store, HOST, "run", SNAPSHOT, "session", 1, PATCH);
  }

  lemma RecordStep(w: World, s': Store, host: Host, r: string, snap: Snapshot, session: string, token: nat, patch: Patch)
    requires RecordOwnerMutation(w.store, host, r, snap, session, token, patch).0 == s'
    ensures Next(w, Record(host, r, snap, session, token, patch), w.(store := s'))
  {
  }

  lemma SettleAdmitted()
    ensures SettlementAdmissible(R6.store, HOST, "run", PAYLOAD, DELIVERED, RECEIPT, false)
  {
  }

  lemma SettleRewrites()
    ensures Enabled(R6.store, SETTLE) && Rewritten(R6.store, SETTLE) == SETTLED
  {
    SettleAdmitted();
    SettlementIff(R6.store, HOST, "run", PAYLOAD, DELIVERED, RECEIPT, false);
  }

  lemma SettleTakes()
    ensures Next(R6, SETTLE, R7)
  {
    SettleRewrites();
    assert map["run" := RECORDED]["run" := SETTLED] == map["run" := SETTLED];
  }

  lemma WaitsForTheRecord()
    ensures Recover(W5.store, HOST, "run", true).1 == InProgress
  {
    assert Standing(PERSISTED, "attempt");
    ApplyInDoubtAnswer(W5.store, HOST, "run", true);
  }

  lemma PathsAreRebuilt()
    ensures Reconstructs(RECORDED) && Reconstructs(SETTLED) && Delivered(RECORDED, "attempt") && Delivered(SETTLED, "attempt")
  {
    assert forall id :: Delivered(RECORDED, id) || Delivered(SETTLED, id) ==> id == "attempt";
    assert Delivered(RECORDED, "attempt") && Delivered(SETTLED, "attempt");
  }

  lemma WaitsForTheSettlement()
    ensures Recover(R6.store, HOST, "run", true).1 == InProgress
  {
    PathsAreRebuilt();
    InProgressIff(R6.store, HOST, "run", true);
  }

  lemma SettledIsDone()
    ensures Recover(R7.store, HOST, "run", true).1 == Nothing
  {
    PathsAreRebuilt();
    NothingIff(R7.store, HOST, "run", true);
  }

  lemma RoutedEnds() returns (ws: seq<World>, acts: seq<Action>)
    ensures Trace(ws, acts) && acts == [RECORD, SETTLE, RECOVER]
    ensures ws[0] == W5 && ws[1] == R6 && ws[2] == R7
  {
    RecordTakes();
    SettleTakes();
    var recovered := Recovers(R7, HOST, "run");
    ws, acts := [W5, R6, R7, recovered], [RECORD, SETTLE, RECOVER];
    ThreeSteps(ws, acts);
  }

  lemma ThreeMore(ws: seq<World>, acts: seq<Action>) returns (all: seq<World>)
    requires Trace(ws, acts) && |acts| == 3 && ws[0] == W5
    ensures Trace(all, CALLS + acts) && Init(all[0]) && all[5] == ws[0] && all[6] == ws[1] && all[7] == ws[2]
  {
    AppliedThen(ws, acts);
    all := PREFIX + ws[1..];
    assert all[5 + 0] == ws[0] && all[5 + 1] == ws[1] && all[5 + 2] == ws[2];
  }

  lemma RoutedRuns() returns (ws: seq<World>, acts: seq<Action>)
    ensures Trace(ws, acts) && Init(ws[0]) && acts == CALLS + [RECORD, SETTLE, RECOVER]
    ensures ws[5] == W5 && ws[6] == R6 && ws[7] == R7
  {
    var last, calls := RoutedEnds();
    ws := ThreeMore(last, calls);
    acts := CALLS + calls;
  }

  // The patch is recorded on the dirty tree it left, the step settles, and recovery, which answered to
  // wait on the way, finds nothing pending.
  lemma RoutedDeliveryCompletes() returns (ws: seq<World>, acts: seq<Action>)
    ensures Trace(ws, acts) && Init(ws[0]) && acts == CALLS + [RECORD, SETTLE, RECOVER]
    ensures Recover(ws[5].store, HOST, "run", true).1 == InProgress == Recover(ws[6].store, HOST, "run", true).1
    ensures Recover(ws[7].store, HOST, "run", true).1 == Nothing
    ensures ws[7] == R7
  {
    ws, acts := RoutedRuns();
    WaitsForTheRecord();
    WaitsForTheSettlement();
    SettledIsDone();
  }
}
