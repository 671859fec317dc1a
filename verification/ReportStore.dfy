/**
 The attempt rows and the report call that updates them in place. The row
 writes are conditional updates, as the store makes them; each stretch of the
 call between two points where it may be cut off is proved to be one step of
 the report protocol.
 */
module ReportStore {
  import opened Prelude
  import opened ReportProtocol
  import opened ReportConditions

  class WorkAttemptStore {
    var runId: string
    var planRevision: nat
    var mutationRevision: nat
    var contractRevision: nat
    var identity: string
    var live: string
    var gitAuthorized: bool
    var rows: seq<Row>
    var steps: map<string, Step>
    var calls: map<string, Proc>
    var proofs: seq<nat>
    var replies: seq<Reply>
    var issued: seq<Directive>

    function View(): State
      reads this
    {
      State(runId, planRevision, mutationRevision, contractRevision, identity, live, gitAuthorized,
            rows, steps, calls, proofs, replies, issued)
    }

    // ---- Row writes ----

    // The key and the payload digest are bound together, and only once.
    method BindStepAttemptReportOperation(a: nat, key: Key, digest: string) returns (ok: bool)
      requires a < |rows|
      modifies this`rows
      ensures ok <==> old(rows)[a].key in {None, Some(key)} && old(rows)[a].digest in {None, Some(digest)}
      ensures rows == if ok then old(rows)[a := old(rows)[a].(key := Some(key), digest := Some(digest))] else old(rows)
    {
      var current := rows[a];
      if current.key.Some? && current.key.value != key { return false; }
      if current.digest.Some? && current.digest.value != digest { return false; }
      rows := rows[a := current.(key := Some(key), digest := Some(digest))];
      return true;
    }

    method CheckpointStepReport(a: nat, checkpoint: Checkpoint) returns (ok: bool)
      requires a < |rows|
      modifies this`rows
      ensures ok <==> old(rows)[a].checkpoint in {None, Some(checkpoint)}
      ensures rows == if ok then old(rows)[a := old(rows)[a].(checkpoint := Some(checkpoint))] else old(rows)
    {
      if rows[a].checkpoint.Some? && rows[a].checkpoint.value != checkpoint { return false; }
      rows := rows[a := rows[a].(checkpoint := Some(checkpoint))];
      return true;
    }

    method SetStepAttemptReportResult(a: nat, result: Answer) returns (ok: bool)
      requires a < |rows|
      modifies this`rows
      ensures ok <==> old(rows)[a].result in {None, Some(result)}
      ensures rows == if ok then old(rows)[a := old(rows)[a].(result := Some(result))] else old(rows)
    {
      if rows[a].result.Some? && rows[a].result.value != result { return false; }
      rows := rows[a := rows[a].(result := Some(result))];
      return true;
    }

    // An attempt that is no longer live keeps its verdict, and an end identity is never replaced.
    method FinishStepAttempt(a: nat, passed: bool, end: Option<string>) returns (ok: bool)
      requires a < |rows|
      modifies this`rows
      ensures ok <==> (Running(old(rows)[a]) ==> end == None || old(rows)[a].endIdentity in {None, end})
      ensures rows == if ok && Running(old(rows)[a])
                      then old(rows)[a := old(rows)[a].(status := if passed then Passed else Failed,
                                                        endIdentity := if end == None then old(rows)[a].endIdentity else end)]
                      else old(rows)
      ensures View() == if ok then Finish(old(View()), a, passed, end) else old(View())
    {
      var current := rows[a];
      if !LiveRow(current) { return true; }
      if end.Some? && current.endIdentity.Some? && current.endIdentity != end { return false; }
      if end.Some? {
        current := current.(endIdentity := end);
      }
      rows := rows[a := current.(status := if passed then Passed else Failed)];
      return true;
    }

    // The latest live attempt of the step is failed, or else its latest; an interrupted one stays so.
    method FailStepAttempt(stepId: string) returns (found: bool)
      modifies this`rows, this`steps
      ensures found <==> stepId in old(steps)
      ensures !found ==> View() == old(View())
      ensures found ==>
                steps == old(steps)[stepId := old(steps)[stepId].(state := StepFailed)] && |rows| == |old(rows)|
                && forall i :: 0 <= i < |rows| ==>
                     rows[i] == if FailsWith(old(rows), stepId, i) && old(rows)[i].status != Interrupted
                                then old(rows)[i].(status := Failed) else old(rows)[i]
      ensures found ==> View() == FailLatestAttempt(old(View()), stepId)
    {
      if stepId !in steps { return false; }
      forall i: nat ensures AttemptToFail(rows, stepId) == Some(i) <==> FailsWith(rows, stepId, i) { FailsWithIff(rows, stepId, i); }
      var attempt := LatestAttempt(rows, stepId, true);
      if attempt.None? {
        attempt := LatestAttempt(rows, stepId, false);
      }
      if attempt.Some? {
        var interrupted := rows[attempt.value].status == Interrupted;
        rows := rows[attempt.value := rows[attempt.value].(status := if interrupted then Interrupted else Failed)];
      }
      steps := steps[stepId := steps[stepId].(state := StepFailed)];
      return true;
    }

    // A passed step is compared, not settled again; a failed comparison throws.
    method SettleWorkStep(stepId: string, passed: bool, resultDigest: string, endIdentity: string) returns (ok: bool)
      modifies this`steps
      ensures ok <==> Settleable(old(View()), stepId, passed, resultDigest, endIdentity)
      ensures steps == if ok then SettledSteps(old(View()), stepId, passed, resultDigest, endIdentity) else old(steps)
      ensures ok <==> SettleStep(old(View()), stepId, passed, resultDigest, endIdentity).Some?
      ensures View() == if ok then SettleStep(old(View()), stepId, passed, resultDigest, endIdentity).value else old(View())
    {
      SettleStepIff(View(), stepId, passed, resultDigest, endIdentity);
      if stepId !in steps { return false; }
      var current := steps[stepId];
      if current.state == StepPassed {
        return passed && current.resultDigest == resultDigest && current.endIdentity == endIdentity;
      }
      if passed {
        steps := steps[stepId := Step(StepPassed, resultDigest, endIdentity)];
      } else {
        steps := steps[stepId := current.(state := StepFailed)];
      }
      return true;
    }

    // ---- The report call, from one point where it may be cut off to the next ----

    method Respond(p: string, payload: Payload, response: Response)
      modifies this`calls, this`replies
      ensures View() == Say(old(View()), p, payload, response)
    {
      replies := replies + [Reply(payload, response)];
      calls := calls[p := Idle];
    }

    method Replay(p: string, payload: Payload, a: nat, result: Answer)
      requires a < |rows|
      modifies this`rows, this`calls, this`replies
      ensures View() == AnswerReplay(old(View()), p, payload, a, result)
    {
      var finished := FinishStepAttempt(a, result.passed, None);
      Respond(p, payload, Replayed(a, result));
    }

    method BeginReport(p: string, payload: Payload, delivery: Delivery)
      requires ProcOf(View(), p).Idle?
      modifies this
      ensures BeginStep(old(View()), p, payload, delivery, View())
    {
      var inspection := Inspect(View(), payload);
      if inspection.comparison.PayloadConflict? {
        Respond(p, payload, Conflict);
        return;
      }
      if delivery.DeliveryOf? && !SameReceipt(View(), payload, inspection.attempt, delivery.receipt) {
        Respond(p, payload, Rejected);
        return;
      }
      if inspection.comparison.Replay? {
        Replay(p, payload, inspection.attempt.value, inspection.comparison.result);
        return;
      }
      if delivery.NoDelivery? && PendingHostWorker(View(), None) {
        Respond(p, payload, WorkerPending);
        return;
      }
      calls := calls[p := Entered(payload)];
    }

    // Recovery from the journalled checkpoint, refused when the Run has moved on.
    method SettleVerifiedReport(p: string, payload: Payload, a: nat, passed: bool, resultDigest: string)
      requires a < |rows| && rows[a].checkpoint.Some?
      modifies this
      ensures RecoverStep(old(View()), p, payload, a, passed, resultDigest, View())
    {
      var checkpoint := rows[a].checkpoint.value;
      if rows[a].kind == HostOwned && !checkpoint.guarded {
        Respond(p, payload, CheckpointStale);
        return;
      }
      if checkpoint.planRevision != planRevision || checkpoint.mutationRevision != mutationRevision
         || (live != identity && !(checkpoint.gitRequested && gitAuthorized)) {
        Respond(p, payload, CheckpointStale);
        return;
      }
      var settled := SettleWorkStep(rows[a].stepId, passed, resultDigest, checkpoint.identity);
      calls := calls[p := if settled then Settled(payload, a) else Idle];
    }

    method BindReport(p: string)
      requires ProcOf(View(), p).Admitted? && ProcOf(View(), p).attempt < |rows|
      modifies this
      ensures BindStep(old(View()), p, View())
    {
      var payload, a := calls[p].payload, calls[p].attempt;
      var key := KeyOf(View(), a);
      var stored := FindKey(rows, key);
      match Compare(if stored.Some? then Some(rows[stored.value]) else None, payload.digest) {
        case PayloadConflict => Respond(p, payload, Conflict);
        case Replay(result) => Replay(p, payload, stored.value, result);
        case _ =>
          var bound := BindStepAttemptReportOperation(a, key, payload.digest);
          if bound {
            calls := calls[p := Bound(payload, a)];
          } else {
            Respond(p, payload, Conflict);
          }
      }
    }

    method CheckpointAndSettleReport(p: string, checkpoint: Checkpoint, passed: bool, resultDigest: string)
      requires ProcOf(View(), p).Bound? && ProcOf(View(), p).attempt < |rows| && CurrentCheckpoint(View(), checkpoint)
      modifies this
      ensures CheckpointAndSettleStep(old(View()), p, checkpoint, passed, resultDigest, View())
    {
      var payload, a := calls[p].payload, calls[p].attempt;
      var written := CheckpointStepReport(a, checkpoint);
      if !written {
        calls := calls[p := Idle];
        return;
      }
      var settled := SettleWorkStep(rows[a].stepId, passed, resultDigest, checkpoint.identity);
      calls := calls[p := if settled then Settled(payload, a) else Idle];
    }

    method JournalResult(p: string, result: Answer)
      requires ProcOf(View(), p).Settled? && ProcOf(View(), p).attempt < |rows|
      modifies this
      ensures JournalStep(old(View()), p, result, View())
    {
      var payload, a := calls[p].payload, calls[p].attempt;
      var written := SetStepAttemptReportResult(a, result);
      calls := calls[p := if written then Journalled(payload, a, result) else Idle];
    }

    method FinishReport(p: string)
      requires ProcOf(View(), p).Journalled? && ProcOf(View(), p).attempt < |rows|
      modifies this
      ensures FinishStep(old(View()), p, View())
    {
      var payload, a, result := calls[p].payload, calls[p].attempt, calls[p].result;
      var finished := FinishStepAttempt(a, result.passed, EndOf(rows[a]));
      if finished {
        Respond(p, payload, Answered(a, result));
      } else {
        calls := calls[p := Idle];
      }
    }
  }
}
