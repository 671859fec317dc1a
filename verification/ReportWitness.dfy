/**
 Runs that show the exceptions: a report proved twice because its repetition names
 nothing, a fence opened by failing the step, and a passed step settled again.
 */
module ReportWitness {
  import opened Prelude
  import opened ReportProtocol
  import opened ReportSafety
  import opened WriterFence

  // ---- A direct report that names neither an attempt nor an operation ----

  predicate Unnamed(payload: Payload) {
    payload.attempt.None? && payload.reportKey.None?
  }

  predicate Unrecognised(s: State, payload: Payload) {
    Unnamed(payload) && forall i :: 0 <= i < |s.rows| ==> !Retransmits(s, s.rows[i], payload)
  }

  lemma {:induction false} NoneRetransmits(s: State, payload: Payload, n: nat)
    requires n <= |s.rows| && forall i :: 0 <= i < n ==> !Retransmits(s, s.rows[i], payload)
    ensures LastRetransmission(s, payload, n).None?
  {
    if n > 0 { NoneRetransmits(s, payload, n - 1); }
  }

  lemma {:induction false} NoneHasKey(rows: seq<Row>, key: Key)
    requires forall i :: 0 <= i < |rows| ==> rows[i].key != Some(key)
    ensures FindKey(rows, key).None?
  {
    if rows != [] { NoneHasKey(rows[..|rows| - 1], key); }
  }

  lemma UnrecognisedIsUnseen(s: State, payload: Payload)
    requires Unrecognised(s, payload)
    ensures Inspect(s, payload) == Inspection(None, Unseen)
  {
    NoneRetransmits(s, payload, |s.rows|);
  }

  // ---- Its steps ----

  lemma Begins(s: State, p: string, payload: Payload)
    requires Unrecognised(s, payload) && ProcOf(s, p).Idle? && !PendingHostWorker(s, None)
    ensures Next(s, Begin(p, payload, NoDelivery), Go(s, p, Entered(payload)))
  {
    UnrecognisedIsUnseen(s, payload);
  }

  lemma EntersFresh(s: State, p: string, payload: Payload, row: Row)
    requires Unrecognised(s, payload) && ProcOf(s, p) == Entered(payload) && Blank(row) && row.kind == OwnerSession
    ensures Next(s, Enter(p, false, None, Some(row), true, ""),
                 Go(s.(rows := s.rows + [row]), p, Admitted(payload, |s.rows|)))
  {
    UnrecognisedIsUnseen(s, payload);
  }

  lemma EntersActive(s: State, p: string, payload: Payload, a: nat)
    requires Unrecognised(s, payload) && ProcOf(s, p) == Entered(payload) && a < |s.rows| && LiveRow(s.rows[a])
    ensures Next(s, Enter(p, false, Some(a), None, true, ""), Go(s, p, Admitted(payload, a)))
  {
    UnrecognisedIsUnseen(s, payload);
  }

  function BoundRow(s: State, payload: Payload, a: nat): Row
    requires a < |s.rows|
  {
    s.rows[a].(key := Some(KeyOf(s, a)), digest := Some(payload.digest))
  }

  // The first binding writes key and digest, a repeated one finds them.
  lemma Binds(s: State, p: string, payload: Payload, a: nat)
    requires ProcOf(s, p) == Admitted(payload, a) && a < |s.rows| && s.rows[a].result.None?
    requires FindKey(s.rows, KeyOf(s, a)) == if s.rows[a].key.Some? then Some(a) else None
    requires s.rows[a].key.Some? ==> s.rows[a].key == Some(KeyOf(s, a))
    requires s.rows[a].digest == if s.rows[a].key.Some? then Some(payload.digest) else None
    ensures Next(s, Bind(p), Go(WithRow(s, a, BoundRow(s, payload, a)), p, Bound(payload, a)))
  {
  }

  lemma Proves(s: State, p: string, payload: Payload, a: nat)
    requires ProcOf(s, p) == Bound(payload, a)
    ensures Next(s, Prove(p), s.(proofs := s.proofs + [a]))
  {
  }

  lemma Crashes(s: State, p: string, payload: Payload, a: nat, c: Checkpoint)
    requires ProcOf(s, p) == Bound(payload, a) && a < |s.rows| && CurrentCheckpoint(s, c) && s.rows[a].checkpoint.None?
    ensures Next(s, CheckpointThenCrash(p, c, false), Go(WithRow(s, a, s.rows[a].(checkpoint := Some(c))), p, Idle))
  {
  }

  // ---- The first delivery ----

  function Checkpointed(s: State, row: Row, payload: Payload, c: Checkpoint): Row {
    row.(key := Some(Key(s.runId, row.stepId, row.planRevision, |s.rows|)), digest := Some(payload.digest), checkpoint := Some(c))
  }

  lemma TraceAfter(ss: seq<State>, acts: seq<Action>, ts: seq<State>, more: seq<Action>)
    requires Trace(ss, acts) && Trace(ts, more) && ts[0] == ss[|acts|]
    ensures Trace(ss + ts[1..], acts + more)
    ensures (ss + ts[1..])[|acts| + |more|] == ts[|more|]
  {
    var all, calls := ss + ts[1..], acts + more;
    forall i | 0 <= i < |calls| ensures StepAt(all, calls, i) {
      if i < |acts| {
        assert StepAt(ss, acts, i);
      } else {
        assert StepAt(ts, more, i - |acts|);
      }
    }
  }

  lemma FreshlyAdmitted(s0: State, p: string, payload: Payload, row: Row) returns (ss: seq<State>, acts: seq<Action>)
    requires ProcOf(s0, p).Idle? && Unrecognised(s0, payload) && Unrecognised(Go(s0, p, Entered(payload)), payload)
    requires Blank(row) && row.kind == OwnerSession && !PendingHostWorker(s0, None)
    ensures acts == [Begin(p, payload, NoDelivery), Enter(p, false, None, Some(row), true, "")]
    ensures Trace(ss, acts) && ss[0] == s0
    ensures ss[2] == Go(Go(s0, p, Entered(payload)).(rows := s0.rows + [row]), p, Admitted(payload, |s0.rows|))
  {
    Begins(s0, p, payload);
    var s1 := Go(s0, p, Entered(payload));
    EntersFresh(s1, p, payload, row);
    var s2 := Go(s1.(rows := s1.rows + [row]), p, Admitted(payload, |s0.rows|));
    ss, acts := [s0, s1, s2], [Begin(p, payload, NoDelivery), Enter(p, false, None, Some(row), true, "")];
    forall i | 0 <= i < 2 ensures StepAt(ss, acts, i) { if i == 0 {} else {} }
  }

  // From admission on: bind, prove, and crash right behind the checkpoint.
  lemma ProvedAndCut(s: State, p: string, payload: Payload, a: nat, c: Checkpoint) returns (ss: seq<State>, acts: seq<Action>)
    requires ProcOf(s, p) == Admitted(payload, a) && a < |s.rows| && Blank(s.rows[a]) && CurrentCheckpoint(s, c)
    requires FindKey(s.rows, KeyOf(s, a)).None?
    ensures acts == [Bind(p), Prove(p), CheckpointThenCrash(p, c, false)]
    ensures Trace(ss, acts) && ss[0] == s
    ensures ss[3].rows == s.rows[a := BoundRow(s, payload, a).(checkpoint := Some(c))] && ss[3].proofs == s.proofs + [a]
    ensures ss[3].runId == s.runId && ss[3].procs == s.procs[p := Idle]
  {
    Binds(s, p, payload, a);
    var s1 := Go(WithRow(s, a, BoundRow(s, payload, a)), p, Bound(payload, a));
    Proves(s1, p, payload, a);
    var s2 := s1.(proofs := s1.proofs + [a]);
    Crashes(s2, p, payload, a, c);
    var s3 := Go(WithRow(s2, a, s2.rows[a].(checkpoint := Some(c))), p, Idle);
    ss, acts := [s, s1, s2, s3], [Bind(p), Prove(p), CheckpointThenCrash(p, c, false)];
    forall i | 0 <= i < 3 ensures StepAt(ss, acts, i) { if i == 0 {} else if i == 1 {} else {} }
  }

  lemma FirstDelivery(s0: State, p: string, payload: Payload, row: Row, c: Checkpoint)
    returns (ss: seq<State>, acts: seq<Action>)
    requires Init(s0) && Blank(row) && row.kind == OwnerSession && CurrentCheckpoint(s0, c) && Unnamed(payload)
    requires !PendingHostWorker(s0, None)
    ensures acts == [Begin(p, payload, NoDelivery), Enter(p, false, None, Some(row), true, ""), Bind(p), Prove(p),
                     CheckpointThenCrash(p, c, false)]
    ensures Trace(ss, acts) && ss[0] == s0
    ensures ss[5].rows == s0.rows + [Checkpointed(s0, row, payload, c)] && ss[5].proofs == [|s0.rows|]
    ensures ss[5].runId == s0.runId && forall q :: ProcOf(ss[5], q).Idle?
  {
    assert Unrecognised(s0, payload) && Unrecognised(Go(s0, p, Entered(payload)), payload);
    ss, acts := FreshlyAdmitted(s0, p, payload, row);
    NoneHasKey(ss[2].rows, KeyOf(ss[2], |s0.rows|));
    var ts, more := ProvedAndCut(ss[2], p, payload, |s0.rows|, c);
    TraceAfter(ss, acts, ts, more);
    ss, acts := ss + ts[1..], acts + more;
  }

  // ---- The repetition ----

  lemma DriftsAndEnters(s: State, p: string, payload: Payload, a: nat, live: string)
    returns (ss: seq<State>, acts: seq<Action>)
    requires ProcOf(s, p).Idle? && !PendingHostWorker(s, None) && a < |s.rows| && LiveRow(s.rows[a])
    requires Unrecognised(s.(live := live), payload)
    ensures acts == [Drift(live), Begin(p, payload, NoDelivery), Enter(p, false, Some(a), None, true, "")]
    ensures Trace(ss, acts) && ss[0] == s && ss[3].rows == s.rows && ss[3].runId == s.runId
    ensures ss[3].proofs == s.proofs && ProcOf(ss[3], p) == Admitted(payload, a)
  {
    var s1 := s.(live := live);
    Begins(s1, p, payload);
    var s2 := Go(s1, p, Entered(payload));
    EntersActive(s2, p, payload, a);
    var s3 := Go(s2, p, Admitted(payload, a));
    ss, acts := [s, s1, s2, s3], [Drift(live), Begin(p, payload, NoDelivery), Enter(p, false, Some(a), None, true, "")];
    forall i | 0 <= i < 3 ensures StepAt(ss, acts, i) { if i == 0 {} else if i == 1 {} else {} }
  }

  lemma BindsAndProves(s: State, p: string, payload: Payload, a: nat) returns (ss: seq<State>, acts: seq<Action>)
    requires ProcOf(s, p) == Admitted(payload, a) && a < |s.rows| && s.rows[a].result.None?
    requires s.rows[a].key == Some(KeyOf(s, a)) && FindKey(s.rows, KeyOf(s, a)) == Some(a)
    requires s.rows[a].digest == Some(payload.digest)
    ensures acts == [Bind(p), Prove(p)] && Trace(ss, acts) && ss[0] == s && ss[2].proofs == s.proofs + [a]
  {
    Binds(s, p, payload, a);
    var s1 := Go(WithRow(s, a, BoundRow(s, payload, a)), p, Bound(payload, a));
    Proves(s1, p, payload, a);
    ss, acts := [s, s1, s1.(proofs := s1.proofs + [a])], [Bind(p), Prove(p)];
    forall i | 0 <= i < 2 ensures StepAt(ss, acts, i) { if i == 0 {} else {} }
  }

  // Repeated after the workspace drifted, a call that names nothing is led nowhere and proves again.
  lemma SecondDelivery(s: State, p: string, payload: Payload, a: nat, live: string)
    returns (ss: seq<State>, acts: seq<Action>)
    requires Inv(s) && ProcOf(s, p).Idle? && !PendingHostWorker(s, None)
    requires a < |s.rows| && LiveRow(s.rows[a]) && s.rows[a].key.Some? && s.rows[a].result.None?
    requires s.rows[a].digest == Some(payload.digest) && Unrecognised(s.(live := live), payload)
    ensures acts == [Drift(live), Begin(p, payload, NoDelivery), Enter(p, false, Some(a), None, true, ""), Bind(p), Prove(p)]
    ensures Trace(ss, acts) && ss[0] == s && ss[5].proofs == s.proofs + [a]
  {
    ss, acts := DriftsAndEnters(s, p, payload, a, live);
    assert RowOk(s, a);
    KeyLeadsHome(s, a);
    var ts, more := BindsAndProves(ss[3], p, payload, a);
    TraceAfter(ss, acts, ts, more);
    ss, acts := ss + ts[1..], acts + more;
  }

  // From any start: a direct report is proved and checkpointed, its process crashes, the
  // workspace drifts, and the same report is proved a second time.
  lemma DriftedRetransmissionProvesAgain(s0: State, p: string, payload: Payload, row: Row, c: Checkpoint, live: string)
    returns (ss: seq<State>, acts: seq<Action>)
    requires Init(s0) && Blank(row) && row.kind == OwnerSession && CurrentCheckpoint(s0, c) && c.identity != live
    requires Unnamed(payload) && !PendingHostWorker(s0, None)
    ensures Trace(ss, acts) && ss[0] == s0 && |acts| == 10
    ensures acts[4] == CheckpointThenCrash(p, c, false) && acts[5] == Drift(live)
    ensures (var a := |s0.rows|;
             && a < |ss[5].rows| && ss[5].rows[a].checkpoint == Some(c) && (forall q :: !MayProve(ss[5], q, a))
             && ss[10].proofs == [a, a])
  {
    var a := |s0.rows|;
    ss, acts := FirstDelivery(s0, p, payload, row, c);
    InitInv(s0);
    TraceKeeps(ss, acts, 0, 5);
    var crashed := ss[5];
    forall i | 0 <= i < |crashed.rows| ensures !Retransmits(crashed.(live := live), crashed.rows[i], payload) {
      if i < a { assert crashed.rows[i] == s0.rows[i]; }
    }
    NoNewWorker(s0, crashed, row, payload, c);
    var ts, more := SecondDelivery(crashed, p, payload, a, live);
    TraceAfter(ss, acts, ts, more);
    assert [a] + [a] == [a, a];
    ss, acts := ss + ts[1..], acts + more;
  }

  lemma NoNewWorker(s0: State, s: State, row: Row, payload: Payload, c: Checkpoint)
    requires !PendingHostWorker(s0, None) && row.kind == OwnerSession
    requires s.rows == s0.rows + [Checkpointed(s0, row, payload, c)]
    ensures !PendingHostWorker(s, None)
  {
    forall i | 0 <= i < |s.rows| ensures !(s.rows[i].kind == HostOwned && LiveRow(s.rows[i])) {
      if i < |s0.rows| { assert s0.rows[i] == s.rows[i]; }
    }
  }

  // ---- Failing the step of a live writer ----

  // While the worker is live, preparation tells to reconcile; after its step was failed
  // by a call that asks nothing of the worker, the same preparation tells to implement.
  lemma FailingOpensTheFence(s0: State, row: Row, directive: Directive) returns (ss: seq<State>, acts: seq<Action>)
    requires Init(s0) && !PendingHostWorker(s0, None)
    requires Blank(row) && row.kind == HostOwned && row.stepId in s0.steps
    ensures (var prepare := PrepareNext(None, false, directive);
             acts == [NewAttempt(row), prepare, FailStep(row.stepId), prepare])
    ensures Trace(ss, acts) && ss[0] == s0
    ensures (var h := |s0.rows|;
             && LiveWriter(ss[1], h) && Issues(ss[1], ss[2], Reconcile)
             && LiveWriter(ss[2], h) && !LiveWriter(ss[3], h) && Issues(ss[3], ss[4], directive))
  {
    var h := |s0.rows|;
    var s1 := s0.(rows := s0.rows + [row]);
    assert s1.rows[h] == row && PendingHostWorker(s1, None);
    var s2 := s1.(issued := s1.issued + [Reconcile]);
    assert AttemptToFail(s2.rows, row.stepId) == Some(h);
    var s3 := FailLatestAttempt(s2, row.stepId);
    NoOtherWorker(s0, s3, row);
    var s4 := s3.(issued := s3.issued + [directive]);
    ss, acts := [s0, s1, s2, s3, s4],
                [NewAttempt(row), PrepareNext(None, false, directive), FailStep(row.stepId), PrepareNext(None, false, directive)];
    forall i | 0 <= i < 4 ensures StepAt(ss, acts, i) { if i == 0 {} else if i == 1 {} else if i == 2 {} else {} }
  }

  lemma NoOtherWorker(s0: State, s: State, row: Row)
    requires !PendingHostWorker(s0, None) && s.rows == s0.rows + [row.(status := Failed)]
    ensures !PendingHostWorker(s, None)
  {
    forall i | 0 <= i < |s.rows| ensures !(s.rows[i].kind == HostOwned && LiveRow(s.rows[i])) {
      if i < |s0.rows| { assert s0.rows[i] == s.rows[i]; }
    }
  }

  // ---- Settling a passed step again ----

  lemma BindsAndSettles(s: State, p: string, payload: Payload, a: nat, c: Checkpoint, resultDigest: string)
    returns (ss: seq<State>, acts: seq<Action>)
    requires ProcOf(s, p) == Admitted(payload, a) && a < |s.rows| && Blank(s.rows[a]) && CurrentCheckpoint(s, c)
    requires FindKey(s.rows, KeyOf(s, a)).None? && s.rows[a].stepId in s.steps && !PassedStep(s, s.rows[a].stepId)
    ensures acts == [Bind(p), CheckpointAndSettle(p, c, true, resultDigest)] && Trace(ss, acts) && ss[0] == s
    ensures ss[2] == Go(s.(rows := s.rows[a := BoundRow(s, payload, a).(checkpoint := Some(c))],
                           steps := s.steps[s.rows[a].stepId := Step(StepPassed, resultDigest, c.identity)]),
                        p, Settled(payload, a))
  {
    Binds(s, p, payload, a);
    var s1 := Go(WithRow(s, a, BoundRow(s, payload, a)), p, Bound(payload, a));
    var written := WithRow(s1, a, s1.rows[a].(checkpoint := Some(c)));
    var s2 := Go(written.(steps := s1.steps[s.rows[a].stepId := Step(StepPassed, resultDigest, c.identity)]), p, Settled(payload, a));
    assert Next(s1, CheckpointAndSettle(p, c, true, resultDigest), s2);
    ss, acts := [s, s1, s2], [Bind(p), CheckpointAndSettle(p, c, true, resultDigest)];
    forall i | 0 <= i < 2 ensures StepAt(ss, acts, i) { if i == 0 {} else {} }
  }

  function ReportCalls(p: string, payload: Payload, row: Row, c: Checkpoint, resultDigest: string): seq<Action> {
    [Begin(p, payload, NoDelivery), Enter(p, false, None, Some(row), true, ""), Bind(p), CheckpointAndSettle(p, c, true, resultDigest)]
  }

  // A fresh direct report settles any step that has not passed.
  lemma SettlesFresh(s: State, p: string, payload: Payload, row: Row, c: Checkpoint, resultDigest: string)
    returns (ss: seq<State>, acts: seq<Action>)
    requires Inv(s) && ProcOf(s, p).Idle? && Unnamed(payload) && !PendingHostWorker(s, None) && CurrentCheckpoint(s, c)
    requires forall i :: 0 <= i < |s.rows| ==> s.rows[i].digest != Some(payload.digest)
    requires Blank(row) && row.kind == OwnerSession && row.stepId in s.steps && !PassedStep(s, row.stepId)
    ensures acts == ReportCalls(p, payload, row, c, resultDigest) && Trace(ss, acts) && ss[0] == s
    ensures ss[4].rows == s.rows + [Checkpointed(s, row, payload, c)]
    ensures ss[4].steps == s.steps[row.stepId := Step(StepPassed, resultDigest, c.identity)]
    ensures ss[4].planRevision == s.planRevision && ss[4].mutationRevision == s.mutationRevision
  {
    assert Unrecognised(s, payload) && Unrecognised(Go(s, p, Entered(payload)), payload);
    ss, acts := FreshlyAdmitted(s, p, payload, row);
    forall i | 0 <= i < |ss[2].rows| ensures ss[2].rows[i].key != Some(KeyOf(ss[2], |s.rows|)) {
      if i < |s.rows| { assert RowOk(s, i); }
    }
    NoneHasKey(ss[2].rows, KeyOf(ss[2], |s.rows|));
    var ts, more := BindsAndSettles(ss[2], p, payload, |s.rows|, c, resultDigest);
    TraceAfter(ss, acts, ts, more);
    ss, acts := ss + ts[1..], acts + more;
  }

  lemma FailsAndCrashes(s: State, p: string, stepId: string) returns (ss: seq<State>, acts: seq<Action>)
    requires stepId in s.steps
    ensures acts == [FailStep(stepId), Crash(p)] && Trace(ss, acts) && ss[0] == s
    ensures ss[2] == Go(FailLatestAttempt(s, stepId), p, Idle)
  {
    var s1 := FailLatestAttempt(s, stepId);
    ss, acts := [s, s1, Go(s1, p, Idle)], [FailStep(stepId), Crash(p)];
    assert StepAt(ss, acts, 0) && StepAt(ss, acts, 1);
  }

  // From any start: a report passes a step, the step is failed, and another report passes
  // it again with another digest and another end identity.
  lemma FailedStepSettlesAgain(s0: State, p: string, payload: Payload, row: Row, c: Checkpoint, digest: string,
                               payload': Payload, row': Row, c': Checkpoint, digest': string)
    returns (ss: seq<State>, acts: seq<Action>)
    requires Init(s0) && !PendingHostWorker(s0, None) && CurrentCheckpoint(s0, c) && CurrentCheckpoint(s0, c')
    requires Unnamed(payload) && Unnamed(payload') && payload'.digest != payload.digest
    requires Blank(row) && Blank(row') && row.kind == OwnerSession == row'.kind
    requires row.stepId == row'.stepId && row.stepId in s0.steps && !PassedStep(s0, row.stepId)
    ensures acts == ReportCalls(p, payload, row, c, digest) + [FailStep(row.stepId), Crash(p)]
                    + ReportCalls(p, payload', row', c', digest')
    ensures Trace(ss, acts) && ss[0] == s0
    ensures row.stepId in ss[4].steps && ss[4].steps[row.stepId] == Step(StepPassed, digest, c.identity)
    ensures row.stepId in ss[10].steps && ss[10].steps[row.stepId] == Step(StepPassed, digest', c'.identity)
  {
    InitInv(s0);
    ss, acts := SettlesFresh(s0, p, payload, row, c, digest);
    var ts, more := FailsAndCrashes(ss[4], p, row.stepId);
    TraceAfter(ss, acts, ts, more);
    ss, acts := ss + ts[1..], acts + more;
    TraceKeeps(ss, acts, 0, 6);
    FailedRows(s0, ss[6], row, payload, c);
    ts, more := SettlesFresh(ss[6], p, payload', row', c', digest');
    TraceAfter(ss, acts, ts, more);
    ss, acts := ss + ts[1..], acts + more;
  }

  lemma FailedRows(s0: State, s: State, row: Row, payload: Payload, c: Checkpoint)
    requires Init(s0) && !PendingHostWorker(s0, None) && row.kind == OwnerSession
    requires |s.rows| == |s0.rows| + 1
    requires forall i :: 0 <= i < |s.rows| ==>
               s.rows[i].kind == (s0.rows + [row])[i].kind
               && s.rows[i].digest == (s0.rows + [Checkpointed(s0, row, payload, c)])[i].digest
               && (LiveRow(s.rows[i]) ==> LiveRow((s0.rows + [row])[i]))
    ensures !PendingHostWorker(s, None)
    ensures forall i :: 0 <= i < |s.rows| ==> s.rows[i].digest == if i < |s0.rows| then None else Some(payload.digest)
  {
    forall i | 0 <= i < |s.rows| ensures !(s.rows[i].kind == HostOwned && LiveRow(s.rows[i])) {
      if i < |s0.rows| { assert s0.rows[i] == (s0.rows + [row])[i]; }
    }
  }
}
