/** What each stretch of a report call answers and leaves, said from the rows, the steps and the workspace. */
module ReportConditions {
  import opened Prelude
  import opened ReportProtocol
  import opened ReportSafety

  predicate Running(row: Row) {
    row.status == Started || row.status == Reported || row.status == Verifying
  }

  // ---- The attempt a payload is about ----

  ghost predicate HoldsKey(s: State, key: Key, a: nat) {
    a < |s.rows| && s.rows[a].key == Some(key) && forall i :: a < i < |s.rows| ==> s.rows[i].key != Some(key)
  }

  ghost predicate Keyed(s: State, payload: Payload) {
    payload.reportKey.Some? && exists i :: 0 <= i < |s.rows| && s.rows[i].key == payload.reportKey
  }

  // An owner's row with this very payload, that ended, or was checkpointed, where the workspace is now.
  predicate Repeats(s: State, payload: Payload, a: nat)
    requires a < |s.rows|
  {
    var row := s.rows[a];
    row.kind == OwnerSession && row.digest == Some(payload.digest)
    && (match (row.endIdentity, row.checkpoint)
        case (Some(end), _) => s.live == end
        case (None, Some(c)) => s.live == c.identity
        case (None, None) => false)
    && (payload.stepId == None || payload.stepId == Some(row.stepId))
  }

  ghost predicate Anonymous(s: State, payload: Payload) {
    payload.attempt == None && payload.reportKey == None && exists i :: 0 <= i < |s.rows| && Repeats(s, payload, i)
  }

  // A bound key leads to its row; a payload without any name to the latest row it repeats; else the attempt id does.
  ghost predicate LedTo(s: State, payload: Payload, a: nat) {
    if Keyed(s, payload) then HoldsKey(s, payload.reportKey.value, a)
    else if Anonymous(s, payload) then
      a < |s.rows| && Repeats(s, payload, a) && forall i :: a < i < |s.rows| ==> !Repeats(s, payload, i)
    else a < |s.rows| && payload.attempt == Some(a)
  }

  lemma {:induction false} FoundKey(rows: seq<Row>, key: Key)
    ensures (match FindKey(rows, key)
             case Some(a) => forall i :: a < i < |rows| ==> rows[i].key != Some(key)
             case None => true)
  {
    if rows != [] && rows[|rows| - 1].key != Some(key) {
      FoundKey(rows[..|rows| - 1], key);
      assert forall i :: 0 <= i < |rows| - 1 ==> rows[..|rows| - 1][i] == rows[i];
    }
  }

  lemma {:induction false} FoundRetransmission(s: State, payload: Payload, n: nat)
    requires n <= |s.rows|
    ensures (match LastRetransmission(s, payload, n)
             case Some(a) => Repeats(s, payload, a) && forall i :: a < i < n ==> !Repeats(s, payload, i)
             case None => forall i :: 0 <= i < n ==> !Repeats(s, payload, i))
  {
    if n > 0 { FoundRetransmission(s, payload, n - 1); }
  }

  lemma LedToIff(s: State, payload: Payload, a: nat)
    ensures CanonicalAttempt(s, payload) == Some(a) <==> LedTo(s, payload, a)
  {
    if payload.reportKey.Some? { FoundKey(s.rows, payload.reportKey.value); }
    FoundRetransmission(s, payload, |s.rows|);
  }

  lemma LedNowhere(s: State, payload: Payload)
    ensures CanonicalAttempt(s, payload).None? <==> forall a: nat :: !LedTo(s, payload, a)
  {
    forall a: nat ensures CanonicalAttempt(s, payload) == Some(a) <==> LedTo(s, payload, a) { LedToIff(s, payload, a); }
    if CanonicalAttempt(s, payload).Some? { assert LedTo(s, payload, CanonicalAttempt(s, payload).value); }
  }

  // Another payload is bound to that attempt, or the operation key is unknown.
  ghost predicate Conflicts(s: State, payload: Payload) {
    (exists a: nat :: LedTo(s, payload, a) && s.rows[a].key.Some? && s.rows[a].digest != Some(payload.digest))
    || (payload.reportKey.Some? && forall a: nat :: !LedTo(s, payload, a))
  }

  // The attempt was bound to this payload and has its result.
  ghost predicate Finished(s: State, payload: Payload, a: nat, result: Answer) {
    LedTo(s, payload, a) && s.rows[a].digest == Some(payload.digest) && s.rows[a].result == Some(result)
  }

  // Nothing stands in the way of a report: it was not seen, or is bound to this payload and has no result.
  ghost predicate Unanswered(s: State, payload: Payload) {
    !Conflicts(s, payload) && forall a: nat, result :: !Finished(s, payload, a, result)
  }

  lemma InspectionIff(s: State, payload: Payload)
    requires Inv(s)
    ensures Inspect(s, payload).comparison == PayloadConflict <==> Conflicts(s, payload)
    ensures forall a: nat, result :: Inspect(s, payload) == Inspection(Some(a), Replay(result)) <==> Finished(s, payload, a, result)
    ensures Inspect(s, payload).comparison.Replay? ==> Inspect(s, payload).attempt.Some?
    ensures Inspect(s, payload).attempt == CanonicalAttempt(s, payload)
  {
    InspectFacts(s, payload);
    LedNowhere(s, payload);
    forall a: nat ensures CanonicalAttempt(s, payload) == Some(a) <==> LedTo(s, payload, a) { LedToIff(s, payload, a); }
    var led := CanonicalAttempt(s, payload);
    if led.Some? {
      assert RowOk(s, led.value) && LedTo(s, payload, led.value);
    }
  }

  // ---- Beginning a call ----

  // The worker's own attempt, by the receipt stored for it.
  ghost predicate BringsReceipt(s: State, payload: Payload, receipt: Option<string>) {
    exists a: nat :: LedTo(s, payload, a) && payload.attempt == Some(a)
                && (s.rows[a].kind == Routed || s.rows[a].kind == HostOwned)
                && receipt.Some? && s.rows[a].receipt == receipt
  }

  ghost predicate WriterAtWork(s: State, except: Option<nat>) {
    exists a :: 0 <= a < |s.rows| && s.rows[a].kind == HostOwned && Running(s.rows[a]) && except != Some(a)
  }

  lemma ReceiptIff(s: State, payload: Payload, receipt: Option<string>)
    ensures SameReceipt(s, payload, CanonicalAttempt(s, payload), receipt) <==> BringsReceipt(s, payload, receipt)
  {
    forall a: nat ensures CanonicalAttempt(s, payload) == Some(a) <==> LedTo(s, payload, a) { LedToIff(s, payload, a); }
  }

  // The process answers, and nothing else is said or done but to the row that is finished.
  ghost predicate Says(s: State, s': State, p: string, payload: Payload, response: Response, rows: seq<Row>) {
    s' == s.(procs := s.procs[p := Idle], replies := s.replies + [Reply(payload, response)], rows := rows)
  }

  // A replayed attempt that is still running takes the verdict of its result.
  function FinishedRows(rows: seq<Row>, a: nat, passed: bool): seq<Row>
    requires a < |rows|
  {
    if Running(rows[a]) then rows[a := rows[a].(status := if passed then Passed else Failed)] else rows
  }

  lemma ReplaySays(s: State, p: string, payload: Payload, a: nat, result: Answer)
    requires a < |s.rows|
    ensures Says(s, AnswerReplay(s, p, payload, a, result), p, payload, Replayed(a, result), FinishedRows(s.rows, a, result.passed))
  {
  }

  // A call that begins is answered with a conflict, a refused receipt, the stored result or the writer at
  // work, each exactly on its ground, and else goes on.
  lemma BeginAnswers(s: State, p: string, payload: Payload, delivery: Delivery, s': State)
    requires Inv(s) && BeginStep(s, p, payload, delivery, s')
    ensures if Conflicts(s, payload) then Says(s, s', p, payload, Conflict, s.rows)
            else if delivery.DeliveryOf? && !BringsReceipt(s, payload, delivery.receipt) then
              Says(s, s', p, payload, Rejected, s.rows)
            else if !Unanswered(s, payload) then
              exists a: nat, result :: Finished(s, payload, a, result)
                && Says(s, s', p, payload, Replayed(a, result), FinishedRows(s.rows, a, result.passed))
            else if delivery.NoDelivery? && WriterAtWork(s, None) then Says(s, s', p, payload, WorkerPending, s.rows)
            else s' == s.(procs := s.procs[p := Entered(payload)])
  {
    InspectionIff(s, payload);
    if delivery.DeliveryOf? { ReceiptIff(s, payload, delivery.receipt); }
    var i := Inspect(s, payload);
    if i.comparison.Replay? {
      assert Finished(s, payload, i.attempt.value, i.comparison.result);
      ReplaySays(s, p, payload, i.attempt.value, i.comparison.result);
    }
  }

  // ---- Settling a step ----

  // The step exists, and if it passed, it passed exactly like this.
  predicate Settleable(s: State, stepId: string, passed: bool, digest: string, identity: string) {
    stepId in s.steps
    && (s.steps[stepId].state == StepPassed ==> passed && s.steps[stepId] == Step(StepPassed, digest, identity))
  }

  // A passing verdict leaves the step passed with its digest and identity, a failing one failed.
  function SettledSteps(s: State, stepId: string, passed: bool, digest: string, identity: string): map<string, Step>
    requires stepId in s.steps
  {
    s.steps[stepId := if passed then Step(StepPassed, digest, identity)
                      else Step(StepFailed, s.steps[stepId].resultDigest, s.steps[stepId].endIdentity)]
  }

  lemma SettleStepIff(s: State, stepId: string, passed: bool, digest: string, identity: string)
    ensures SettleStep(s, stepId, passed, digest, identity).Some? <==> Settleable(s, stepId, passed, digest, identity)
    ensures Settleable(s, stepId, passed, digest, identity) ==>
              SettleStep(s, stepId, passed, digest, identity).value
              == s.(steps := SettledSteps(s, stepId, passed, digest, identity))
  {
    if Settleable(s, stepId, passed, digest, identity) && s.steps[stepId].state == StepPassed {
      assert s.steps[stepId := s.steps[stepId]] == s.steps;
    }
  }

  // ---- Recovery from a checkpoint ----

  // The Run stands where the proof was made: same revisions, and the recorded tree but for an authorised commit.
  predicate StillHolds(s: State, a: nat)
    requires a < |s.rows| && s.rows[a].checkpoint.Some?
  {
    var c := s.rows[a].checkpoint.value;
    (s.rows[a].kind == HostOwned ==> c.guarded)
    && (c.planRevision, c.mutationRevision) == (s.planRevision, s.mutationRevision)
    && (s.live == s.identity || (c.gitRequested && s.gitAuthorized))
  }

  // A checkpoint settles its step exactly while it holds and the step can be settled so.
  lemma RecoverIff(s: State, p: string, payload: Payload, a: nat, passed: bool, digest: string, s': State)
    requires a < |s.rows| && s.rows[a].checkpoint.Some? && RecoverStep(s, p, payload, a, passed, digest, s')
    ensures (var identity := s.rows[a].checkpoint.value.identity;
             if !StillHolds(s, a) then Says(s, s', p, payload, CheckpointStale, s.rows)
             else if Settleable(s, s.rows[a].stepId, passed, digest, identity) then
               s' == s.(procs := s.procs[p := Settled(payload, a)],
                        steps := SettledSteps(s, s.rows[a].stepId, passed, digest, identity))
             else s' == s.(procs := s.procs[p := Idle]))
  {
    SettleStepIff(s, s.rows[a].stepId, passed, digest, s.rows[a].checkpoint.value.identity);
  }

  // Under the lease: the same answers again, then the checkpoint of the attempt the payload is about, and
  // only then a fresh report, of the attempt it names, the active one or a row of its own.
  lemma EnterAnswers(s: State, act: Action, s': State)
    requires Inv(s) && act.Enter? && Next(s, act, s')
    ensures (var p, payload := act.p, ProcOf(s, act.p).payload;
             if Conflicts(s, payload) then Says(s, s', p, payload, Conflict, s.rows)
             else if !Unanswered(s, payload) then
               exists a: nat, result :: Finished(s, payload, a, result)
                 && Says(s, s', p, payload, Replayed(a, result), FinishedRows(s.rows, a, result.passed))
             else if exists a: nat :: LedTo(s, payload, a) && s.rows[a].checkpoint.Some? then
               exists a: nat :: LedTo(s, payload, a) && s.rows[a].checkpoint.Some?
                           && RecoverStep(s, p, payload, a, act.passed, act.resultDigest, s')
             else if act.checkpointOnly then Says(s, s', p, payload, CheckpointStale, s.rows)
             else AdmittedAs(s, act, payload, s'))
  {
    var p, payload := act.p, ProcOf(s, act.p).payload;
    InspectionIff(s, payload);
    forall a: nat ensures CanonicalAttempt(s, payload) == Some(a) <==> LedTo(s, payload, a) { LedToIff(s, payload, a); }
    var i := Inspect(s, payload);
    if i.comparison.Replay? {
      assert Finished(s, payload, i.attempt.value, i.comparison.result);
      ReplaySays(s, p, payload, i.attempt.value, i.comparison.result);
    }
  }

  ghost predicate AdmittedAs(s: State, act: Action, payload: Payload, s': State)
    requires act.Enter?
  {
    match (payload.attempt, act.active)
    case (Some(a), _) => a < |s.rows| && s' == s.(procs := s.procs[act.p := Admitted(payload, a)])
    case (None, Some(a)) =>
      a < |s.rows| && Running(s.rows[a]) && s' == s.(procs := s.procs[act.p := Admitted(payload, a)])
    case (None, None) =>
      act.direct.Some?
      && act.direct.value == Row(act.direct.value.stepId, OwnerSession, Started, act.direct.value.planRevision,
                                 None, None, None, None, None, None)
      && s' == s.(rows := s.rows + [act.direct.value], procs := s.procs[act.p := Admitted(payload, |s.rows|)])
  }

  // A call under the lease always gets an answer or goes on, if what it would be admitted to is there.
  lemma EnteredGoesOn(s: State, act: Action)
    requires Inv(s) && act.Enter? && ProcOf(s, act.p).Entered?
    requires (match (ProcOf(s, act.p).payload.attempt, act.active)
              case (Some(a), _) => a < |s.rows|
              case (None, Some(a)) => a < |s.rows| && Running(s.rows[a])
              case (None, None) => act.direct.Some? && Blank(act.direct.value) && act.direct.value.kind == OwnerSession)
    ensures exists s' :: Next(s, act, s')
  {
    var p, payload := act.p, ProcOf(s, act.p).payload;
    InspectionIff(s, payload);
    var i := Inspect(s, payload);
    var s' := match i.comparison
      case PayloadConflict => Say(s, p, payload, Conflict)
      case Replay(result) => AnswerReplay(s, p, payload, i.attempt.value, result)
      case _ =>
        if i.attempt.Some? && s.rows[i.attempt.value].checkpoint.Some? then Recovered(s, act, payload, i.attempt.value)
        else if act.checkpointOnly then Say(s, p, payload, CheckpointStale)
        else match (payload.attempt, act.active)
          case (Some(a), _) => Go(s, p, Admitted(payload, a))
          case (None, Some(a)) => Go(s, p, Admitted(payload, a))
          case (None, None) => Go(s.(rows := s.rows + [act.direct.value]), p, Admitted(payload, |s.rows|));
    assert Next(s, act, s');
  }

  function Recovered(s: State, act: Action, payload: Payload, a: nat): State
    requires act.Enter? && a < |s.rows| && s.rows[a].checkpoint.Some?
  {
    var settled := SettleStep(s, s.rows[a].stepId, act.passed, act.resultDigest, s.rows[a].checkpoint.value.identity);
    if !StillHolds(s, a) then Say(s, act.p, payload, CheckpointStale)
    else if settled.Some? then Go(settled.value, act.p, Settled(payload, a)) else Go(s, act.p, Idle)
  }

  // ---- Binding, journalling, finishing ----

  // An attempt is bound to one payload: the first one, or the same again while it has no result.
  lemma BindAnswers(s: State, p: string, s': State)
    requires Inv(s) && BindStep(s, p, s')
    ensures (var payload, a := ProcOf(s, p).payload, ProcOf(s, p).attempt;
             var row := s.rows[a];
             match (row.digest, row.result)
             case (None, _) =>
               s' == s.(procs := s.procs[p := Bound(payload, a)],
                        rows := s.rows[a := row.(key := Some(Key(s.runId, row.stepId, row.planRevision, a)),
                                                 digest := Some(payload.digest))])
             case (Some(digest), result) =>
               if digest != payload.digest then Says(s, s', p, payload, Conflict, s.rows)
               else match result
                 case Some(answer) => Says(s, s', p, payload, Replayed(a, answer), FinishedRows(s.rows, a, answer.passed))
                 case None => s' == s.(procs := s.procs[p := Bound(payload, a)]))
  {
    var payload, a := ProcOf(s, p).payload, ProcOf(s, p).attempt;
    KeyLeadsHome(s, a);
    assert RowOk(s, a);
    if s.rows[a].digest == Some(payload.digest) {
      if s.rows[a].result.Some? {
        ReplaySays(s, p, payload, a, s.rows[a].result.value);
      } else {
        assert s.rows[a := s.rows[a]] == s.rows;
      }
    }
  }

  // A checkpoint is journalled if there is none or the same, and then its step settles if it can be.
  lemma CheckpointAnswers(s: State, p: string, c: Checkpoint, passed: bool, digest: string, s': State)
    requires CheckpointAndSettleStep(s, p, c, passed, digest, s')
    ensures (c.planRevision, c.mutationRevision) == (s.planRevision, s.mutationRevision)
    ensures (var payload, a := ProcOf(s, p).payload, ProcOf(s, p).attempt;
             var rows := s.rows[a := s.rows[a].(checkpoint := Some(c))];
             if s.rows[a].checkpoint.Some? && s.rows[a].checkpoint != Some(c) then s' == s.(procs := s.procs[p := Idle])
             else if Settleable(s, s.rows[a].stepId, passed, digest, c.identity) then
               s' == s.(rows := rows, procs := s.procs[p := Settled(payload, a)],
                        steps := SettledSteps(s, s.rows[a].stepId, passed, digest, c.identity))
             else s' == s.(rows := rows, procs := s.procs[p := Idle]))
  {
    var a := ProcOf(s, p).attempt;
    var written := WithRow(s, a, s.rows[a].(checkpoint := Some(c)));
    SettleStepIff(written, s.rows[a].stepId, passed, digest, c.identity);
  }

  // A call cut off after the journal write leaves the checkpoint, and at most the step reporting.
  lemma CutOffLeaves(s: State, p: string, c: Checkpoint, reporting: bool, s': State)
    requires CheckpointThenCrashStep(s, p, c, reporting, s')
    ensures (c.planRevision, c.mutationRevision) == (s.planRevision, s.mutationRevision)
    ensures (var a := ProcOf(s, p).attempt;
             var st := s.rows[a].stepId;
             if s.rows[a].checkpoint.Some? && s.rows[a].checkpoint != Some(c) then s' == s.(procs := s.procs[p := Idle])
             else s' == s.(rows := s.rows[a := s.rows[a].(checkpoint := Some(c))], procs := s.procs[p := Idle],
                           steps := if reporting && st in s.steps && s.steps[st].state != StepPassed
                                    then s.steps[st := s.steps[st].(state := Reporting)] else s.steps))
  {
  }

  // A result is journalled if there is none or the same; any other ends the call.
  lemma JournalAnswers(s: State, p: string, result: Answer, s': State)
    requires JournalStep(s, p, result, s')
    ensures (var payload, a := ProcOf(s, p).payload, ProcOf(s, p).attempt;
             match s.rows[a].result
             case None => s' == s.(rows := s.rows[a := s.rows[a].(result := Some(result))],
                                   procs := s.procs[p := Journalled(payload, a, result)])
             case Some(known) => s' == s.(procs := s.procs[p := if known == result then Journalled(payload, a, result) else Idle]))
  {
    var a := ProcOf(s, p).attempt;
    if s.rows[a].result == Some(result) { assert s.rows[a := s.rows[a]] == s.rows; }
  }

  // A running attempt takes the verdict and ends where its checkpoint was observed, unless it already
  // ended elsewhere; the journalled result is answered.
  lemma FinishAnswers(s: State, p: string, s': State)
    requires FinishStep(s, p, s')
    ensures (var payload, a, result := ProcOf(s, p).payload, ProcOf(s, p).attempt, ProcOf(s, p).result;
             var row := s.rows[a];
             var verdict := row.(status := if result.passed then Passed else Failed);
             if !Running(row) then Says(s, s', p, payload, Answered(a, result), s.rows)
             else match row.checkpoint
               case None => Says(s, s', p, payload, Answered(a, result), s.rows[a := verdict])
               case Some(c) =>
                 if row.endIdentity.Some? && row.endIdentity != Some(c.identity) then s' == s.(procs := s.procs[p := Idle])
                 else Says(s, s', p, payload, Answered(a, result), s.rows[a := verdict.(endIdentity := Some(c.identity))]))
  {
  }

  // A report that is settled early fails its attempt: a running one, or one that had no result.
  lemma SettleEarlyAnswers(s: State, p: string, result: Answer, s': State)
    requires SettleEarlyStep(s, p, result, s')
    ensures (var payload, a := ProcOf(s, p).payload, ProcOf(s, p).attempt;
             var row := s.rows[a];
             if row.result.Some? && row.result != Some(result) then s' == s.(procs := s.procs[p := Idle])
             else Says(s, s', p, payload, Answered(a, result),
                       s.rows[a := if row.result.Some? && !Running(row) then row
                                   else row.(result := Some(result), status := Failed)]))
  {
  }

  // ---- Failing a step ----

  // The step's latest running attempt, or without one its latest.
  ghost predicate FailsWith(rows: seq<Row>, stepId: string, a: nat) {
    a < |rows| && rows[a].stepId == stepId
    && (if exists i :: 0 <= i < |rows| && rows[i].stepId == stepId && Running(rows[i]) then
          Running(rows[a]) && forall i :: a < i < |rows| && rows[i].stepId == stepId ==> !Running(rows[i])
        else forall i :: a < i < |rows| ==> rows[i].stepId != stepId)
  }

  lemma FailsWithIff(rows: seq<Row>, stepId: string, a: nat)
    ensures AttemptToFail(rows, stepId) == Some(a) <==> FailsWith(rows, stepId, a)
  {
  }

  // ---- Directives ----

  // To reconcile, exactly when recovery is blocked or a writer is at work other than the one being settled.
  lemma DirectiveIff(s: State, act: Action, s': State)
    requires act.PrepareNext? && Next(s, act, s')
    ensures (var settled := if act.settler.Some? then Some(ProcOf(s, act.settler.value).attempt) else None;
             s' == s.(issued := s.issued + [if act.recoveryBlocked || WriterAtWork(s, settled) then Reconcile else act.directive]))
  {
    var settled := if act.settler.Some? then Some(ProcOf(s, act.settler.value).attempt) else None;
    if a :| 0 <= a < |s.rows| && s.rows[a].kind == HostOwned && Running(s.rows[a]) && settled != Some(a) {
      assert LiveRow(s.rows[a]);
    }
  }

  // The contract is revised exactly while no writer is at work.
  lemma RevisionIff(s: State, s': State)
    requires Next(s, ReviseContract, s')
    ensures s' == if WriterAtWork(s, None) then s else s.(contractRevision := s.contractRevision + 1)
  {
  }
}
