/** Exactly-once reporting, over every interleaving of processes and crashes. */
module ReportSafety {
  import opened Prelude
  import opened ReportProtocol

  // ---- Invariant ----

  ghost predicate RowOk(s: State, i: nat)
    requires i < |s.rows|
  {
    var row := s.rows[i];
    && (row.key.Some? ==> row.key == Some(KeyOf(s, i)))
    && (row.key.Some? <==> row.digest.Some?)
    && (row.checkpoint.Some? ==> row.key.Some?)
    && (row.result.Some? ==> row.key.Some?)
  }

  ghost predicate ProcOk(s: State, proc: Proc) {
    match proc
    case Idle => true
    case Entered(_) => true
    case Admitted(_, a) => a < |s.rows|
    case Bound(payload, a) => a < |s.rows| && s.rows[a].digest == Some(payload.digest)
    case Settled(payload, a) => a < |s.rows| && s.rows[a].digest == Some(payload.digest)
    case Journalled(payload, a, result) =>
      a < |s.rows| && s.rows[a].digest == Some(payload.digest) && s.rows[a].result == Some(result)
  }

  ghost predicate ReplyOk(s: State, r: Reply) {
    match r.response
    case Replayed(a, result) =>
      a < |s.rows| && s.rows[a].result == Some(result) && s.rows[a].digest == Some(r.payload.digest)
    case Answered(a, result) =>
      a < |s.rows| && s.rows[a].result == Some(result) && s.rows[a].digest == Some(r.payload.digest)
    case _ => true
  }

  ghost predicate Inv(s: State) {
    && (forall i :: 0 <= i < |s.rows| ==> RowOk(s, i))
    && (forall p :: p in s.procs ==> ProcOk(s, s.procs[p]))
    && (forall r :: r in s.replies ==> ReplyOk(s, r))
  }

  // What is written in a row is never lost or changed.
  ghost predicate RowKept(before: Row, after: Row) {
    && after.stepId == before.stepId && after.planRevision == before.planRevision && after.kind == before.kind
    && (before.key.Some? ==> after.key == before.key)
    && (before.digest.Some? ==> after.digest == before.digest)
    && (before.checkpoint.Some? ==> after.checkpoint == before.checkpoint)
    && (before.result.Some? ==> after.result == before.result)
    && (before.receipt.Some? ==> after.receipt == before.receipt)
    && (before.endIdentity.Some? ==> after.endIdentity == before.endIdentity)
  }

  ghost predicate Extends(s: State, s': State) {
    s'.runId == s.runId && |s.rows| <= |s'.rows|
    && forall i :: 0 <= i < |s.rows| ==> RowKept(s.rows[i], s'.rows[i])
  }

  lemma ExtendsTransitive(s: State, t: State, u: State)
    requires Extends(s, t) && Extends(t, u)
    ensures Extends(s, u)
  {
    forall i | 0 <= i < |s.rows| ensures RowKept(s.rows[i], u.rows[i]) {
      assert RowKept(s.rows[i], t.rows[i]) && RowKept(t.rows[i], u.rows[i]);
    }
  }

  // A bound key leads back to its own row.
  lemma KeyLeadsHome(s: State, a: nat)
    requires forall i :: 0 <= i < |s.rows| ==> RowOk(s, i)
    requires a < |s.rows|
    ensures FindKey(s.rows, KeyOf(s, a)) == if s.rows[a].key.Some? then Some(a) else None
  {
    var found := FindKey(s.rows, KeyOf(s, a));
    if found.Some? { assert RowOk(s, found.value); }
    assert RowOk(s, a);
  }

  // ---- Preservation ----

  lemma UpdateKeepsInv(s: State, s': State, p: string)
    requires Inv(s) && Extends(s, s')
    requires forall i :: 0 <= i < |s'.rows| ==> RowOk(s', i)
    requires forall q :: q != p ==> (q in s'.procs <==> q in s.procs) && (q in s.procs ==> s'.procs[q] == s.procs[q])
    requires ProcOk(s', ProcOf(s', p))
    requires forall r :: r in s'.replies ==> r in s.replies || ReplyOk(s', r)
    ensures Inv(s')
  {
    forall q | q in s'.procs ensures ProcOk(s', s'.procs[q]) {
      if q != p { assert ProcOk(s, s.procs[q]); }
    }
    forall r | r in s'.replies ensures ReplyOk(s', r) {
      if r in s.replies { assert ReplyOk(s, r); }
    }
  }

  // Writing one row: enough that the row is kept and stays consistent.
  lemma RowWriteExtends(s: State, s': State, a: nat, row: Row)
    requires a < |s.rows| && s'.runId == s.runId && s'.rows == s.rows[a := row]
    requires forall i :: 0 <= i < |s.rows| ==> RowOk(s, i)
    requires RowKept(s.rows[a], row) && RowOk(s', a)
    ensures Extends(s, s') && forall i :: 0 <= i < |s'.rows| ==> RowOk(s', i)
  {
    forall i | 0 <= i < |s'.rows| ensures RowOk(s', i) && RowKept(s.rows[i], s'.rows[i]) {
      assert RowOk(s, i);
    }
  }

  lemma SameRowsExtend(s: State, s': State)
    requires s'.runId == s.runId && s'.rows == s.rows
    requires forall i :: 0 <= i < |s.rows| ==> RowOk(s, i)
    ensures Extends(s, s') && forall i :: 0 <= i < |s'.rows| ==> RowOk(s', i)
  {
    forall i | 0 <= i < |s'.rows| ensures RowOk(s', i) { assert RowOk(s, i); }
  }

  lemma AppendExtends(s: State, s': State, row: Row)
    requires s'.runId == s.runId && s'.rows == s.rows + [row] && Blank(row)
    requires forall i :: 0 <= i < |s.rows| ==> RowOk(s, i)
    ensures Extends(s, s') && forall i :: 0 <= i < |s'.rows| ==> RowOk(s', i)
  {
    forall i | 0 <= i < |s'.rows| ensures RowOk(s', i) {
      if i < |s.rows| { assert RowOk(s, i); }
    }
  }

  // Replaying at any point: the row is finished and the stored result returned.
  lemma ReplayKeepsInv(s: State, p: string, payload: Payload, a: nat, result: Answer)
    requires Inv(s) && a < |s.rows|
    requires s.rows[a].result == Some(result) && s.rows[a].digest == Some(payload.digest)
    ensures Inv(AnswerReplay(s, p, payload, a, result)) && Extends(s, AnswerReplay(s, p, payload, a, result))
  {
    var s' := AnswerReplay(s, p, payload, a, result);
    assert RowOk(s, a);
    RowWriteExtends(s, s', a, s'.rows[a]);
    UpdateKeepsInv(s, s', p);
  }

  lemma InspectFacts(s: State, payload: Payload)
    requires Inv(s)
    ensures (var i := Inspect(s, payload);
             i.attempt.Some? ==>
               (var row := s.rows[i.attempt.value];
                i.comparison == Compare(if row.key.Some? then Some(row) else None, payload.digest)))
    ensures Inspect(s, payload).comparison.Replay? ==> Inspect(s, payload).attempt.Some?
  {
    var i := Inspect(s, payload);
    if i.attempt.Some? { KeyLeadsHome(s, i.attempt.value); }
  }

  // A move of one call that leaves rows and answers alone, whatever it did to the steps.
  lemma GoKeepsInv(s: State, settled: State, p: string, proc: Proc)
    requires Inv(s) && settled == s.(steps := settled.steps) && ProcOk(s, proc)
    ensures Inv(Go(settled, p, proc)) && Extends(s, Go(settled, p, proc))
  {
    var s' := Go(settled, p, proc);
    SameRowsExtend(s, s');
    assert ProcOk(s', proc);
    UpdateKeepsInv(s, s', p);
  }

  // An answer that gives no result.
  lemma RefusalKeepsInv(s: State, p: string, payload: Payload, response: Response)
    requires Inv(s) && !response.Replayed? && !response.Answered?
    ensures Inv(Say(s, p, payload, response)) && Extends(s, Say(s, p, payload, response))
  {
    var s' := Say(s, p, payload, response);
    SameRowsExtend(s, s');
    UpdateKeepsInv(s, s', p);
  }

  lemma BeginKeepsInv(s: State, p: string, payload: Payload, delivery: Delivery, s': State)
    requires Inv(s) && BeginStep(s, p, payload, delivery, s')
    ensures Inv(s') && Extends(s, s')
  {
    var i := Inspect(s, payload);
    InspectFacts(s, payload);
    if i.comparison.Replay? && s' == AnswerReplay(s, p, payload, i.attempt.value, i.comparison.result) {
      ReplayKeepsInv(s, p, payload, i.attempt.value, i.comparison.result);
    } else if s' == Go(s, p, Entered(payload)) {
      GoKeepsInv(s, s, p, Entered(payload));
    } else {
      RefusalKeepsInv(s, p, payload, Conflict);
      RefusalKeepsInv(s, p, payload, Rejected);
      RefusalKeepsInv(s, p, payload, WorkerPending);
    }
  }

  lemma RecoverKeepsInv(s: State, p: string, payload: Payload, a: nat, passed: bool, resultDigest: string, s': State)
    requires Inv(s) && a < |s.rows| && s.rows[a].checkpoint.Some? && s.rows[a].digest == Some(payload.digest)
    requires RecoverStep(s, p, payload, a, passed, resultDigest, s')
    ensures Inv(s') && Extends(s, s')
  {
    var settled := SettleStep(s, s.rows[a].stepId, passed, resultDigest, s.rows[a].checkpoint.value.identity);
    if s' == Say(s, p, payload, CheckpointStale) {
      RefusalKeepsInv(s, p, payload, CheckpointStale);
    } else if settled.None? {
      GoKeepsInv(s, s, p, Idle);
    } else {
      GoKeepsInv(s, settled.value, p, Settled(payload, a));
    }
  }

  lemma AdmitKeepsInv(s: State, p: string, payload: Payload, active: Option<nat>, direct: Option<Row>, s': State)
    requires Inv(s) && AdmitStep(s, p, payload, active, direct, s')
    ensures Inv(s') && Extends(s, s')
  {
    if payload.attempt.Some? || active.Some? { SameRowsExtend(s, s'); } else { AppendExtends(s, s', direct.value); }
    UpdateKeepsInv(s, s', p);
  }

  lemma EnterKeepsInv(s: State, p: string, checkpointOnly: bool, active: Option<nat>, direct: Option<Row>, passed: bool,
                      resultDigest: string, s': State)
    requires Inv(s) && EnterStep(s, p, checkpointOnly, active, direct, passed, resultDigest, s')
    ensures Inv(s') && Extends(s, s')
  {
    var payload := ProcOf(s, p).payload;
    var i := Inspect(s, payload);
    InspectFacts(s, payload);
    if i.comparison.Replay? {
      ReplayKeepsInv(s, p, payload, i.attempt.value, i.comparison.result);
    } else if i.comparison.PayloadConflict? || (checkpointOnly && s'.rows == s.rows && s'.procs == s.procs[p := Idle]) {
      if s' == Say(s, p, payload, Conflict) || s' == Say(s, p, payload, CheckpointStale) {
        SameRowsExtend(s, s');
        UpdateKeepsInv(s, s', p);
      } else {
        assert RowOk(s, i.attempt.value);
        RecoverKeepsInv(s, p, payload, i.attempt.value, passed, resultDigest, s');
      }
    } else if i.attempt.Some? && s.rows[i.attempt.value].checkpoint.Some? {
      assert RowOk(s, i.attempt.value);
      RecoverKeepsInv(s, p, payload, i.attempt.value, passed, resultDigest, s');
    } else {
      AdmitKeepsInv(s, p, payload, active, direct, s');
    }
  }

  lemma BindKeepsInv(s: State, p: string, s': State)
    requires Inv(s) && BindStep(s, p, s')
    ensures Inv(s') && Extends(s, s')
  {
    var payload, a := ProcOf(s, p).payload, ProcOf(s, p).attempt;
    KeyLeadsHome(s, a);
    assert RowOk(s, a);
    if s.rows[a].key.Some? && s.rows[a].digest == Some(payload.digest) && s.rows[a].result.Some? {
      ReplayKeepsInv(s, p, payload, a, s.rows[a].result.value);
    } else {
      if s'.rows == s.rows { SameRowsExtend(s, s'); } else { RowWriteExtends(s, s', a, s'.rows[a]); }
      UpdateKeepsInv(s, s', p);
    }
  }

  // A bound process writes its own row, or finds another value there and stops.
  lemma WriteKeepsInv(s: State, p: string, s': State)
    requires Inv(s) && p in s.procs && s'.runId == s.runId
    requires s.procs[p].Bound? || s.procs[p].Settled? || s.procs[p].Journalled?
    requires s.procs[p].attempt < |s.rows|
    requires (var a := s.procs[p].attempt;
              |s'.rows| == |s.rows| && s'.rows == s.rows[a := s'.rows[a]]
              && RowKept(s.rows[a], s'.rows[a])
              && s'.rows[a].key == s.rows[a].key && s'.rows[a].digest == s.rows[a].digest
              && s'.procs == s.procs[p := ProcOf(s', p)] && ProcOk(s', ProcOf(s', p)))
    requires forall r :: r in s'.replies ==> r in s.replies || ReplyOk(s', r)
    ensures Inv(s') && Extends(s, s')
  {
    var a := s.procs[p].attempt;
    assert ProcOk(s, s.procs[p]) && RowOk(s, a);
    RowWriteExtends(s, s', a, s'.rows[a]);
    UpdateKeepsInv(s, s', p);
  }

  lemma CheckpointKeepsInv(s: State, p: string, c: Checkpoint, passed: bool, resultDigest: string, s': State)
    requires Inv(s) && CheckpointAndSettleStep(s, p, c, passed, resultDigest, s')
    ensures Inv(s') && Extends(s, s')
  {
    assert ProcOk(s, s.procs[p]);
    WriteKeepsInv(s, p, s');
  }

  lemma CheckpointCrashKeepsInv(s: State, p: string, c: Checkpoint, reporting: bool, s': State)
    requires Inv(s) && CheckpointThenCrashStep(s, p, c, reporting, s')
    ensures Inv(s') && Extends(s, s')
  {
    assert ProcOk(s, s.procs[p]);
    WriteKeepsInv(s, p, s');
  }

  lemma SettleEarlyKeepsInv(s: State, p: string, result: Answer, s': State)
    requires Inv(s) && SettleEarlyStep(s, p, result, s')
    ensures Inv(s') && Extends(s, s')
  {
    assert ProcOk(s, s.procs[p]);
    WriteKeepsInv(s, p, s');
  }

  lemma JournalKeepsInv(s: State, p: string, result: Answer, s': State)
    requires Inv(s) && JournalStep(s, p, result, s')
    ensures Inv(s') && Extends(s, s')
  {
    assert ProcOk(s, s.procs[p]);
    WriteKeepsInv(s, p, s');
  }

  lemma FinishKeepsInv(s: State, p: string, s': State)
    requires Inv(s) && FinishStep(s, p, s')
    ensures Inv(s') && Extends(s, s')
  {
    assert ProcOk(s, s.procs[p]);
    WriteKeepsInv(s, p, s');
  }

  // Steps a process takes inside one report call.
  predicate OfAReport(act: Action) {
    act.Begin? || act.Enter? || act.Bind? || act.Prove? || act.SettleEarly? || act.CheckpointAndSettle?
    || act.CheckpointThenCrash? || act.Journal? || act.FinishReport? || act.Reject? || act.Crash?
  }

  lemma StepKeepsInv(s: State, act: Action, s': State)
    requires Inv(s) && Next(s, act, s')
    ensures Inv(s') && Extends(s, s')
  {
    if act.Prove? || act.Reject? || act.Crash? {
      SameRowsExtend(s, s');
      UpdateKeepsInv(s, s', act.p);
    } else if OfAReport(act) {
      ReportKeepsInv(s, act, s');
    } else {
      CallKeepsInv(s, act, s');
    }
  }

  lemma ReportKeepsInv(s: State, act: Action, s': State)
    requires Inv(s) && Next(s, act, s') && OfAReport(act) && !act.Prove? && !act.Reject? && !act.Crash?
    ensures Inv(s') && Extends(s, s')
  {
    match act
    case Begin(p, payload, delivery) => BeginKeepsInv(s, p, payload, delivery, s');
    case Enter(p, only, active, direct, passed, digest) => EnterKeepsInv(s, p, only, active, direct, passed, digest, s');
    case Bind(p) => BindKeepsInv(s, p, s');
    case SettleEarly(p, result) => SettleEarlyKeepsInv(s, p, result, s');
    case CheckpointAndSettle(p, c, passed, digest) => CheckpointKeepsInv(s, p, c, passed, digest, s');
    case CheckpointThenCrash(p, c, reporting) => CheckpointCrashKeepsInv(s, p, c, reporting, s');
    case Journal(p, result) => JournalKeepsInv(s, p, result, s');
    case FinishReport(p) => FinishKeepsInv(s, p, s');
  }

  // Calls outside a report: one row keeps what is written in it, or none is touched.
  lemma CallKeepsInv(s: State, act: Action, s': State)
    requires Inv(s) && Next(s, act, s') && !OfAReport(act)
    ensures Inv(s') && Extends(s, s')
  {
    var failed := if act.FailStep? then AttemptToFail(s.rows, act.stepId) else None;
    if act.RecordReceipt? || act.RejectCandidate? || act.Interrupt? || act.RecordFailedTurn? {
      assert RowOk(s, act.a);
      RowWriteExtends(s, s', act.a, s'.rows[act.a]);
    } else if failed.Some? {
      assert RowOk(s, failed.value);
      RowWriteExtends(s, s', failed.value, s'.rows[failed.value]);
    } else if act.NewAttempt? {
      AppendExtends(s, s', act.row);
    } else {
      SameRowsExtend(s, s');
    }
    EnvironmentKeepsInv(s, s');
  }

  lemma EnvironmentKeepsInv(s: State, s': State)
    requires Inv(s) && Extends(s, s') && s'.procs == s.procs && s'.replies == s.replies
    requires forall i :: 0 <= i < |s'.rows| ==> RowOk(s', i)
    ensures Inv(s')
  {
    forall p | p in s'.procs ensures ProcOk(s', s'.procs[p]) { assert ProcOk(s, s.procs[p]); }
    forall r | r in s'.replies ensures ReplyOk(s', r) { assert ReplyOk(s, r); }
  }

  lemma {:induction false} TraceKeeps(ss: seq<State>, acts: seq<Action>, m: nat, n: nat)
    requires Trace(ss, acts) && m <= n <= |acts| && Inv(ss[m])
    ensures Inv(ss[n]) && Extends(ss[m], ss[n])
  {
    if m < n {
      TraceKeeps(ss, acts, m, n - 1);
      assert StepAt(ss, acts, n - 1);
      StepKeepsInv(ss[n - 1], acts[n - 1], ss[n]);
      ExtendsTransitive(ss[m], ss[n - 1], ss[n]);
    } else {
      forall i | 0 <= i < |ss[m].rows| ensures RowKept(ss[m].rows[i], ss[n].rows[i]) {}
    }
  }

  lemma InitInv(s: State)
    requires Init(s)
    ensures Inv(s)
  {
  }

  // ---- How each call moves its process ----

  // One process moves, passed steps stay as they are, and nothing is handed out or revised.
  ghost predicate Moves(s: State, s': State, p: string) {
    s'.procs == s.procs[p := ProcOf(s', p)] && s'.issued == s.issued && s'.contractRevision == s.contractRevision
    && forall st :: st in s.steps && s.steps[st].state == StepPassed ==> st in s'.steps && s'.steps[st] == s.steps[st]
  }

  // The step was just settled from a checkpoint at the Run's own revisions.
  ghost predicate SettledNow(s: State, s': State, p: string) {
    ProcOf(s', p).Settled?
    && (var a := ProcOf(s', p).attempt;
        a < |s'.rows| && s'.rows[a].checkpoint.Some?
        && CurrentCheckpoint(s, s'.rows[a].checkpoint.value) && CurrentCheckpoint(s', s'.rows[a].checkpoint.value))
  }

  ghost predicate Shape(s: State, act: Action, s': State) {
    match act
    case Begin(p, _, _) => Moves(s, s', p) && (ProcOf(s', p).Idle? || ProcOf(s', p).Entered?)
    case Enter(p, _, _, _, _, _) =>
      Moves(s, s', p) && (ProcOf(s', p).Idle? || ProcOf(s', p).Admitted? || SettledNow(s, s', p))
    case Bind(p) =>
      Moves(s, s', p)
      && (ProcOf(s', p).Idle?
          || (ProcOf(s', p).Bound? && ProcOf(s, p).Admitted? && ProcOf(s', p).attempt == ProcOf(s, p).attempt))
    case CheckpointAndSettle(p, _, _, _) => Moves(s, s', p) && (ProcOf(s', p).Idle? || SettledNow(s, s', p))
    case CheckpointThenCrash(p, _, _) => Moves(s, s', p) && ProcOf(s', p).Idle?
    case SettleEarly(p, _) => Moves(s, s', p) && ProcOf(s', p).Idle?
    case Journal(p, _) => Moves(s, s', p) && (ProcOf(s', p).Idle? || ProcOf(s', p).Journalled?)
    case FinishReport(p) => Moves(s, s', p) && ProcOf(s', p).Idle?
    case Reject(p) => Moves(s, s', p) && ProcOf(s', p).Idle?
    case Crash(p) => Moves(s, s', p) && ProcOf(s', p).Idle?
    case _ => s'.procs == s.procs && (s'.steps == s.steps || OnSteps(act))
  }

  // Direct calls on steps: failing one, starting or completing one, rejecting a candidate, a new plan.
  predicate OnSteps(act: Action) {
    act.FailStep? || act.OperateStep? || act.RejectCandidate? || act.Replan?
  }

  lemma SettlingKeepsPasses(s: State, settled: State, stepId: string, passed: bool, resultDigest: string, identity: string)
    requires SettleStep(s, stepId, passed, resultDigest, identity) == Some(settled)
    ensures settled == s.(steps := settled.steps)
    ensures forall st :: st in s.steps && s.steps[st].state == StepPassed ==> st in settled.steps && settled.steps[st] == s.steps[st]
  {
  }

  lemma SettledMoves(s: State, settled: State, p: string, payload: Payload, a: nat)
    requires settled == s.(steps := settled.steps) && a < |s.rows| && s.rows[a].checkpoint.Some?
    requires CurrentCheckpoint(s, s.rows[a].checkpoint.value)
    requires forall st :: st in s.steps && s.steps[st].state == StepPassed ==> st in settled.steps && settled.steps[st] == s.steps[st]
    ensures Moves(s, Go(settled, p, Settled(payload, a)), p) && SettledNow(s, Go(settled, p, Settled(payload, a)), p)
  {
  }

  lemma RecoverMoves(s: State, p: string, payload: Payload, a: nat, passed: bool, resultDigest: string, s': State)
    requires a < |s.rows| && s.rows[a].checkpoint.Some?
    requires RecoverStep(s, p, payload, a, passed, resultDigest, s')
    ensures Moves(s, s', p) && (ProcOf(s', p).Idle? || SettledNow(s, s', p))
  {
    var c := s.rows[a].checkpoint.value;
    var settled := SettleStep(s, s.rows[a].stepId, passed, resultDigest, c.identity);
    if s' != Say(s, p, payload, CheckpointStale) && settled.Some? {
      SettlingKeepsPasses(s, settled.value, s.rows[a].stepId, passed, resultDigest, c.identity);
      SettledMoves(s, settled.value, p, payload, a);
    }
  }

  lemma EnterMoves(s: State, p: string, checkpointOnly: bool, active: Option<nat>, direct: Option<Row>, passed: bool,
                   resultDigest: string, s': State)
    requires EnterStep(s, p, checkpointOnly, active, direct, passed, resultDigest, s')
    ensures Moves(s, s', p) && (ProcOf(s', p).Idle? || ProcOf(s', p).Admitted? || SettledNow(s, s', p))
  {
    var payload := ProcOf(s, p).payload;
    var i := Inspect(s, payload);
    if i.attempt.Some? && s.rows[i.attempt.value].checkpoint.Some?
       && RecoverStep(s, p, payload, i.attempt.value, passed, resultDigest, s') {
      RecoverMoves(s, p, payload, i.attempt.value, passed, resultDigest, s');
    } else if AdmitStep(s, p, payload, active, direct, s') {
      AdmitMoves(s, p, payload, active, direct, s');
    }
  }

  lemma AdmitMoves(s: State, p: string, payload: Payload, active: Option<nat>, direct: Option<Row>, s': State)
    requires AdmitStep(s, p, payload, active, direct, s')
    ensures Moves(s, s', p) && ProcOf(s', p).Admitted?
  {
  }

  lemma BeginMoves(s: State, p: string, payload: Payload, delivery: Delivery, s': State)
    requires BeginStep(s, p, payload, delivery, s')
    ensures Moves(s, s', p) && (ProcOf(s', p).Idle? || ProcOf(s', p).Entered?)
  {
  }

  lemma BindMoves(s: State, p: string, s': State)
    requires BindStep(s, p, s')
    ensures Shape(s, Bind(p), s')
  {
  }

  lemma CheckpointMoves(s: State, p: string, c: Checkpoint, passed: bool, resultDigest: string, s': State)
    requires CheckpointAndSettleStep(s, p, c, passed, resultDigest, s')
    ensures Shape(s, CheckpointAndSettle(p, c, passed, resultDigest), s')
  {
  }

  lemma CheckpointCrashMoves(s: State, p: string, c: Checkpoint, reporting: bool, s': State)
    requires CheckpointThenCrashStep(s, p, c, reporting, s')
    ensures Shape(s, CheckpointThenCrash(p, c, reporting), s')
  {
  }

  lemma StepShape(s: State, act: Action, s': State)
    requires Next(s, act, s')
    ensures Shape(s, act, s')
  {
    if OfAReport(act) && !act.Prove? && !act.Reject? && !act.Crash? { ReportShape(s, act, s'); }
  }

  lemma ReportShape(s: State, act: Action, s': State)
    requires Next(s, act, s') && OfAReport(act) && !act.Prove? && !act.Reject? && !act.Crash?
    ensures Shape(s, act, s')
  {
    match act
    case Begin(p, payload, delivery) => BeginMoves(s, p, payload, delivery, s');
    case Enter(p, only, active, direct, passed, digest) => EnterMoves(s, p, only, active, direct, passed, digest, s');
    case Bind(p) => BindMoves(s, p, s');
    case CheckpointAndSettle(p, c, passed, digest) => CheckpointMoves(s, p, c, passed, digest, s');
    case CheckpointThenCrash(p, c, reporting) => CheckpointCrashMoves(s, p, c, reporting, s');
    case SettleEarly(p, result) => SettleEarlyMoves(s, p, result, s');
    case Journal(p, result) => JournalMoves(s, p, result, s');
    case FinishReport(p) => FinishMoves(s, p, s');
  }

  lemma SettleEarlyMoves(s: State, p: string, result: Answer, s': State)
    requires SettleEarlyStep(s, p, result, s')
    ensures Shape(s, SettleEarly(p, result), s')
  {
  }

  lemma JournalMoves(s: State, p: string, result: Answer, s': State)
    requires JournalStep(s, p, result, s')
    ensures Shape(s, Journal(p, result), s')
  {
  }

  lemma FinishMoves(s: State, p: string, s': State)
    requires FinishStep(s, p, s')
    ensures Shape(s, FinishReport(p), s')
  {
  }

  // ---- Results are given once ----

  ghost predicate Names(s: State, payload: Payload, a: nat)
  {
    a < |s.rows| && CanonicalAttempt(s, payload) == Some(a)
  }

  // What a call for an attempt with a journalled result is answered: a delivery also has
  // to bring the receipt stored for the attempt.
  function Final(row: Row, payload: Payload, a: nat, delivery: Delivery): Response
    requires row.digest.Some? && row.result.Some?
  {
    if payload.digest != row.digest.value then Conflict
    else if delivery.DeliveryOf?
            && !(payload.attempt == Some(a) && row.kind != OwnerSession
                 && delivery.receipt.Some? && row.receipt == delivery.receipt) then Rejected
    else Replayed(a, row.result.value)
  }

  // Once a result is journalled, every later call with that payload replays exactly
  // it, and every other payload for the attempt is a conflict.
  lemma JournalledResultIsFinal(ss: seq<State>, acts: seq<Action>, m: nat, n: nat, a: nat)
    requires Trace(ss, acts) && Init(ss[0]) && m <= n < |acts|
    requires a < |ss[m].rows| && ss[m].rows[a].result.Some?
    requires acts[n].Begin? && Names(ss[n], acts[n].payload, a)
    ensures ss[m].rows[a].digest.Some? && a < |ss[n].rows|
    ensures ss[n].rows[a].digest == ss[m].rows[a].digest && ss[n].rows[a].result == ss[m].rows[a].result
    ensures ss[n + 1].replies == ss[n].replies
              + [Reply(acts[n].payload, Final(ss[n].rows[a], acts[n].payload, a, acts[n].delivery))]
    ensures ss[n + 1].proofs == ss[n].proofs
  {
    InitInv(ss[0]);
    TraceKeeps(ss, acts, 0, m);
    TraceKeeps(ss, acts, m, n);
    assert RowOk(ss[m], a) && RowKept(ss[m].rows[a], ss[n].rows[a]);
    InspectFacts(ss[n], acts[n].payload);
    assert StepAt(ss, acts, n);
  }

  // Whatever process answers, and however often: one result per attempt.
  lemma OneResultPerAttempt(ss: seq<State>, acts: seq<Action>, n: nat, r: Reply, r': Reply)
    requires Trace(ss, acts) && Init(ss[0]) && n <= |acts|
    requires r in ss[n].replies && r' in ss[n].replies
    requires r.response.Replayed? || r.response.Answered?
    requires r'.response.Replayed? || r'.response.Answered?
    requires r.response.attempt == r'.response.attempt
    ensures r.response.result == r'.response.result
    ensures r.payload.digest == r'.payload.digest
  {
    InitInv(ss[0]);
    TraceKeeps(ss, acts, 0, n);
    assert ReplyOk(ss[n], r) && ReplyOk(ss[n], r');
  }

  // Once an operation is bound to a payload, a different payload for the same
  // attempt is a conflict for ever, before and after the result is journalled.
  lemma DifferentPayloadConflicts(ss: seq<State>, acts: seq<Action>, m: nat, n: nat, a: nat)
    requires Trace(ss, acts) && Init(ss[0]) && m <= n < |acts|
    requires a < |ss[m].rows| && ss[m].rows[a].key.Some?
    requires acts[n].Begin? && Names(ss[n], acts[n].payload, a)
    requires Some(acts[n].payload.digest) != ss[m].rows[a].digest
    ensures ss[n + 1] == Say(ss[n], acts[n].p, acts[n].payload, Conflict)
  {
    InitInv(ss[0]);
    TraceKeeps(ss, acts, 0, m);
    TraceKeeps(ss, acts, m, n);
    assert RowOk(ss[m], a) && RowKept(ss[m].rows[a], ss[n].rows[a]);
    InspectFacts(ss[n], acts[n].payload);
    assert StepAt(ss, acts, n);
  }

  // ---- Proofs are not repeated ----

  // The process is past the checkpoint test for attempt a, with its payload.
  ghost predicate MayProve(s: State, p: string, a: nat) {
    a < |s.rows|
    && ((ProcOf(s, p).Bound? && ProcOf(s, p).attempt == a)
        || (ProcOf(s, p).Admitted? && ProcOf(s, p).attempt == a
            && s.rows[a].digest == Some(ProcOf(s, p).payload.digest)))
  }

  // A repetition of a's own payload is seen as one: its credentials, its key or
  // the unchanged workspace lead inspection back to a.
  ghost predicate Recognised(s: State, act: Action, a: nat)
    requires a < |s.rows|
  {
    act.Enter? && ProcOf(s, act.p).Entered? ==>
      (var payload := ProcOf(s, act.p).payload;
       s.rows[a].digest == Some(payload.digest)
       && (if payload.attempt.Some? then payload.attempt == Some(a) else act.active == Some(a))
       ==> CanonicalAttempt(s, payload) == Some(a))
  }

  // The payload brings the bound operation key, or no key and the attempt id.
  predicate NamesItself(s: State, payload: Payload, a: nat)
    requires a < |s.rows|
  {
    if payload.reportKey.Some? then payload.reportKey == Some(KeyOf(s, a)) && s.rows[a].key == payload.reportKey
    else payload.attempt == Some(a)
  }

  lemma NamedLeadsHome(s: State, payload: Payload, a: nat)
    requires Inv(s) && a < |s.rows| && NamesItself(s, payload, a)
    ensures Names(s, payload, a)
  {
    KeyLeadsHome(s, a);
  }

  // Every call that works under a with its own payload names a.
  ghost predicate CarriesItsName(s: State, act: Action, a: nat)
    requires a < |s.rows|
  {
    act.Enter? && ProcOf(s, act.p).Entered? ==>
      (var payload := ProcOf(s, act.p).payload;
       s.rows[a].digest == Some(payload.digest)
       && (if payload.attempt.Some? then payload.attempt == Some(a) else act.active == Some(a))
       ==> NamesItself(s, payload, a))
  }

  lemma NamedReportsAreRecognised(s: State, act: Action, a: nat)
    requires Inv(s) && a < |s.rows| && CarriesItsName(s, act, a)
    ensures Recognised(s, act, a)
  {
    if act.Enter? && ProcOf(s, act.p).Entered? && NamesItself(s, ProcOf(s, act.p).payload, a) {
      NamedLeadsHome(s, ProcOf(s, act.p).payload, a);
    }
  }

  lemma AdmissionNames(s: State, p: string, payload: Payload, active: Option<nat>, direct: Option<Row>, s': State)
    requires AdmitStep(s, p, payload, active, direct, s')
    ensures ProcOf(s', p).Admitted? && ProcOf(s', p).payload == payload && s.rows <= s'.rows
    ensures (var a := ProcOf(s', p).attempt;
             if payload.attempt.Some? then payload.attempt == Some(a) else active == Some(a) || a == |s.rows|)
  {
  }

  lemma AdmittedByAdmission(s: State, p: string, checkpointOnly: bool, active: Option<nat>, direct: Option<Row>,
                            passed: bool, resultDigest: string, s': State)
    requires EnterStep(s, p, checkpointOnly, active, direct, passed, resultDigest, s') && ProcOf(s', p).Admitted?
    ensures AdmitStep(s, p, ProcOf(s, p).payload, active, direct, s')
    ensures (var canonical := CanonicalAttempt(s, ProcOf(s, p).payload);
             canonical.Some? ==> s.rows[canonical.value].checkpoint.None?)
  {
    var i := Inspect(s, ProcOf(s, p).payload);
    if i.attempt.Some? && s.rows[i.attempt.value].checkpoint.Some?
       && RecoverStep(s, p, ProcOf(s, p).payload, i.attempt.value, passed, resultDigest, s') {
      RecoverMoves(s, p, ProcOf(s, p).payload, i.attempt.value, passed, resultDigest, s');
    }
  }

  // A report is admitted only past the checkpoint test, for the attempt it works under.
  lemma AdmittedPastTheTest(s: State, p: string, checkpointOnly: bool, active: Option<nat>, direct: Option<Row>,
                            passed: bool, resultDigest: string, s': State)
    requires EnterStep(s, p, checkpointOnly, active, direct, passed, resultDigest, s') && ProcOf(s', p).Admitted?
    ensures ProcOf(s', p).payload == ProcOf(s, p).payload && s.rows <= s'.rows
    ensures (var named := ProcOf(s, p).payload.attempt;
             var a := ProcOf(s', p).attempt;
             if named.Some? then named == Some(a) else active == Some(a) || a == |s.rows|)
    ensures (var canonical := CanonicalAttempt(s, ProcOf(s, p).payload);
             canonical.Some? ==> s.rows[canonical.value].checkpoint.None?)
  {
    AdmittedByAdmission(s, p, checkpointOnly, active, direct, passed, resultDigest, s');
    AdmissionNames(s, p, ProcOf(s, p).payload, active, direct, s');
  }

  // The guard of the branch that lets a checkpointed attempt be reported afresh.
  ghost predicate PassesUnseen(s: State, act: Action, a: nat)
    requires act.Enter? && ProcOf(s, act.p).Entered? && a < |s.rows|
  {
    var payload := ProcOf(s, act.p).payload;
    var canonical := CanonicalAttempt(s, payload);
    && !act.checkpointOnly
    && (if payload.attempt.Some? then payload.attempt == Some(a) else act.active == Some(a) && LiveRow(s.rows[a]))
    && s.rows[a].digest == Some(payload.digest)
    && (Inspect(s, payload).comparison.Unseen? || Inspect(s, payload).comparison.InProgress?)
    && (canonical.Some? ==> s.rows[canonical.value].checkpoint.None?)
  }

  // A call is let past the checkpoint test of its own attempt exactly when
  // inspection leads it to no attempt, or to one without a checkpoint.
  lemma AdmittedAgainIff(s: State, act: Action, a: nat)
    requires act.Enter? && ProcOf(s, act.p).Entered? && a < |s.rows| && s.rows[a].checkpoint.Some?
    ensures (exists s' :: Next(s, act, s') && MayProve(s', act.p, a)) <==> PassesUnseen(s, act, a)
  {
    if exists s' :: Next(s, act, s') && MayProve(s', act.p, a) {
      var s' :| Next(s, act, s') && MayProve(s', act.p, a);
      EnterMoves(s, act.p, act.checkpointOnly, act.active, act.direct, act.passed, act.resultDigest, s');
      AdmittedOnlyUnseen(s, act, s', a);
    }
    if PassesUnseen(s, act, a) {
      var s' := Go(s, act.p, Admitted(ProcOf(s, act.p).payload, a));
      assert Next(s, act, s') && MayProve(s', act.p, a);
    }
  }

  lemma AdmittedOnlyUnseen(s: State, act: Action, s': State, a: nat)
    requires act.Enter? && ProcOf(s, act.p).Entered? && a < |s.rows| && s.rows[a].checkpoint.Some?
    requires Next(s, act, s') && ProcOf(s', act.p).Admitted? && MayProve(s', act.p, a)
    ensures PassesUnseen(s, act, a)
  {
    AdmittedPastTheTest(s, act.p, act.checkpointOnly, act.active, act.direct, act.passed, act.resultDigest, s');
  }

  lemma BindRespectsDigest(s: State, p: string, s': State, a: nat)
    requires Inv(s) && BindStep(s, p, s') && a < |s.rows| && s.rows[a].key.Some? && !MayProve(s, p, a)
    ensures !MayProve(s', p, a)
  {
    if ProcOf(s, p).attempt == a { KeyLeadsHome(s, a); }
    assert RowOk(s, a);
  }

  // The process is let past the checkpoint test of a although a has a checkpoint.
  ghost predicate LetPast(s: State, act: Action, p: string, a: nat) {
    a < |s.rows| && act.Enter? && act.p == p && ProcOf(s, p).Entered? && PassesUnseen(s, act, a)
  }

  lemma CheckpointClosesTheDoor(s: State, act: Action, s': State, a: nat, p: string)
    requires Inv(s) && Next(s, act, s') && a < |s.rows| && s.rows[a].checkpoint.Some?
    requires !LetPast(s, act, p, a) && !MayProve(s, p, a)
    ensures !MayProve(s', p, a)
  {
    StepShape(s, act, s');
    RowStays(s, act, s', a);
    if act.Enter? && act.p == p {
      if ProcOf(s', p).Admitted? && MayProve(s', p, a) { AdmittedOnlyUnseen(s, act, s', a); }
    } else if act.Bind? && act.p == p {
      BindRespectsDigest(s, p, s', a);
    } else {
      NoNewProver(s, act, s', a, p);
    }
  }

  // A checkpointed row was bound, so its key and digest are there to stay.
  lemma RowStays(s: State, act: Action, s': State, a: nat)
    requires Inv(s) && Next(s, act, s') && a < |s.rows| && s.rows[a].checkpoint.Some?
    ensures a < |s'.rows| && s.rows[a].key.Some? && s.rows[a].digest.Some? && s'.rows[a].digest == s.rows[a].digest
  {
    StepKeepsInv(s, act, s');
    assert RowOk(s, a) && RowKept(s.rows[a], s'.rows[a]);
  }

  // Only entering and binding bring a process past the checkpoint test.
  lemma NoNewProver(s: State, act: Action, s': State, a: nat, p: string)
    requires Shape(s, act, s') && !((act.Enter? || act.Bind?) && act.p == p)
    requires a < |s.rows| && a < |s'.rows| && s'.rows[a].digest == s.rows[a].digest && !MayProve(s, p, a)
    ensures !MayProve(s', p, a)
  {
  }

  predicate ProvesFor(s: State, act: Action, a: nat) {
    act.Prove? && ProcOf(s, act.p).Bound? && ProcOf(s, act.p).attempt == a
  }

  ghost function ProofsFor(proofs: seq<nat>, a: nat): nat {
    multiset(proofs)[a]
  }

  lemma {:induction false} DoorStaysClosed(ss: seq<State>, acts: seq<Action>, m: nat, n: nat, a: nat, p: string)
    requires Trace(ss, acts) && Init(ss[0]) && m <= n <= |acts|
    requires a < |ss[m].rows| && ss[m].rows[a].checkpoint.Some? && !MayProve(ss[m], p, a)
    requires forall k :: m <= k < n ==> !LetPast(ss[k], acts[k], p, a)
    ensures !MayProve(ss[n], p, a)
  {
    if m < n {
      DoorStaysClosed(ss, acts, m, n - 1, a, p);
      CheckpointStays(ss, acts, m, n - 1, a);
      assert StepAt(ss, acts, n - 1);
      CheckpointClosesTheDoor(ss[n - 1], acts[n - 1], ss[n], a, p);
    }
  }

  lemma CheckpointStays(ss: seq<State>, acts: seq<Action>, m: nat, n: nat, a: nat)
    requires Trace(ss, acts) && Init(ss[0]) && m <= n <= |acts|
    requires a < |ss[m].rows| && ss[m].rows[a].checkpoint.Some?
    ensures Inv(ss[n]) && a < |ss[n].rows| && ss[n].rows[a].checkpoint == ss[m].rows[a].checkpoint
  {
    InitInv(ss[0]);
    TraceKeeps(ss, acts, 0, m);
    TraceKeeps(ss, acts, m, n);
    assert RowKept(ss[m].rows[a], ss[n].rows[a]);
  }

  // A proof that runs for a checkpointed attempt is run by a call that was past the checkpoint
  // test before the checkpoint was there, or that was let past it unrecognised since.
  lemma NoProofAfterCheckpoint(ss: seq<State>, acts: seq<Action>, m: nat, n: nat, a: nat)
    requires Trace(ss, acts) && Init(ss[0]) && m <= n < |acts|
    requires a < |ss[m].rows| && ss[m].rows[a].checkpoint.Some? && ProvesFor(ss[n], acts[n], a)
    ensures MayProve(ss[m], acts[n].p, a) || exists k :: m <= k < n && LetPast(ss[k], acts[k], acts[n].p, a)
  {
    CheckpointStays(ss, acts, m, n, a);
    assert StepAt(ss, acts, n);
    if !MayProve(ss[m], acts[n].p, a) && forall k :: m <= k < n ==> !LetPast(ss[k], acts[k], acts[n].p, a) {
      DoorStaysClosed(ss, acts, m, n, a, acts[n].p);
    }
  }

  lemma NamedIsNotLetPast(s: State, act: Action, p: string, a: nat)
    requires Inv(s) && a < |s.rows| && s.rows[a].checkpoint.Some? && CarriesItsName(s, act, a)
    ensures !LetPast(s, act, p, a)
  {
    NamedReportsAreRecognised(s, act, a);
  }

  // Calls that carry their operation key or attempt id need no further assumption: with
  // no call in flight at the checkpoint, as after a crash, its attempt is never proved again.
  lemma {:induction false} NamedReportsProveNoMore(ss: seq<State>, acts: seq<Action>, m: nat, n: nat, a: nat)
    requires Trace(ss, acts) && Init(ss[0]) && m <= n <= |acts|
    requires a < |ss[m].rows| && ss[m].rows[a].checkpoint.Some? && forall p :: !MayProve(ss[m], p, a)
    requires forall k :: m <= k < n ==> a < |ss[k].rows| && CarriesItsName(ss[k], acts[k], a)
    ensures ProofsFor(ss[n].proofs, a) == ProofsFor(ss[m].proofs, a)
  {
    if m < n {
      NamedReportsProveNoMore(ss, acts, m, n - 1, a);
      assert StepAt(ss, acts, n - 1);
      if ProvesFor(ss[n - 1], acts[n - 1], a) {
        forall k | m <= k < n - 1 ensures !LetPast(ss[k], acts[k], acts[n - 1].p, a) {
          CheckpointStays(ss, acts, m, k, a);
          NamedIsNotLetPast(ss[k], acts[k], acts[n - 1].p, a);
        }
        NoProofAfterCheckpoint(ss, acts, m, n - 1, a);
      }
      ProofsOnlyByProve(ss[n - 1], acts[n - 1], ss[n], a);
    }
  }

  lemma BeginEffects(s: State, p: string, payload: Payload, delivery: Delivery, s': State)
    requires BeginStep(s, p, payload, delivery, s')
    ensures s'.proofs == s.proofs && s'.steps == s.steps
  {
  }

  lemma RecoverEffects(s: State, p: string, payload: Payload, a: nat, passed: bool, resultDigest: string, s': State)
    requires a < |s.rows| && s.rows[a].checkpoint.Some?
    requires RecoverStep(s, p, payload, a, passed, resultDigest, s')
    ensures s'.proofs == s.proofs && (s'.steps == s.steps || SettledNow(s, s', p))
  {
  }

  lemma EnterEffects(s: State, p: string, checkpointOnly: bool, active: Option<nat>, direct: Option<Row>, passed: bool,
                     resultDigest: string, s': State)
    requires EnterStep(s, p, checkpointOnly, active, direct, passed, resultDigest, s')
    ensures s'.proofs == s.proofs && (s'.steps == s.steps || SettledNow(s, s', p))
  {
    var payload := ProcOf(s, p).payload;
    var i := Inspect(s, payload);
    if i.attempt.Some? && s.rows[i.attempt.value].checkpoint.Some?
       && RecoverStep(s, p, payload, i.attempt.value, passed, resultDigest, s') {
      RecoverEffects(s, p, payload, i.attempt.value, passed, resultDigest, s');
    }
  }

  lemma BindEffects(s: State, p: string, s': State)
    requires BindStep(s, p, s')
    ensures s'.proofs == s.proofs && s'.steps == s.steps
  {
  }

  lemma CheckpointEffects(s: State, p: string, c: Checkpoint, passed: bool, resultDigest: string, s': State)
    requires CheckpointAndSettleStep(s, p, c, passed, resultDigest, s')
    ensures s'.proofs == s.proofs && (s'.steps == s.steps || SettledNow(s, s', p))
  {
  }

  lemma CheckpointCrashEffects(s: State, p: string, c: Checkpoint, reporting: bool, s': State)
    requires CheckpointThenCrashStep(s, p, c, reporting, s')
    ensures s'.proofs == s.proofs
  {
  }

  // What one step may do to the executed proofs and to the step rows.
  lemma StepEffects(s: State, act: Action, s': State)
    requires Next(s, act, s')
    ensures act.Prove? || s'.proofs == s.proofs
    ensures act.Prove? ==> s'.proofs == s.proofs + [ProcOf(s, act.p).attempt]
    ensures s'.steps == s.steps || act.CheckpointThenCrash? || OnSteps(act)
            || ((act.Enter? || act.CheckpointAndSettle?) && SettledNow(s, s', act.p))
  {
    match act
    case Begin(p, payload, delivery) => BeginEffects(s, p, payload, delivery, s');
    case Enter(p, only, active, direct, passed, digest) => EnterEffects(s, p, only, active, direct, passed, digest, s');
    case Bind(p) => BindEffects(s, p, s');
    case CheckpointAndSettle(p, c, passed, digest) => CheckpointEffects(s, p, c, passed, digest, s');
    case CheckpointThenCrash(p, c, reporting) => CheckpointCrashEffects(s, p, c, reporting, s');
    case _ =>
  }

  lemma ProofsOnlyByProve(s: State, act: Action, s': State, a: nat)
    requires Next(s, act, s') && !ProvesFor(s, act, a)
    ensures ProofsFor(s'.proofs, a) == ProofsFor(s.proofs, a)
  {
    StepEffects(s, act, s');
  }

  // ---- Settlement happens on the Run the proof described ----

  // Any step a report settles is settled from a journalled checkpoint whose
  // plan and mutation revisions are the Run's own at that moment.
  lemma SettlesOnlyAtItsRevisions(s: State, act: Action, s': State, p: string)
    requires Next(s, act, s') && !ProcOf(s, p).Settled? && ProcOf(s', p).Settled?
    ensures SettledNow(s, s', p)
    ensures (act.Enter? || act.CheckpointAndSettle?) && act.p == p
  {
    StepShape(s, act, s');
  }

  // ---- A passed step ----

  predicate PassedStep(s: State, st: string) {
    st in s.steps && s.steps[st].state == StepPassed
  }

  // Calls that take a passed step back or complete it with something else.
  predicate TakesBack(s: State, act: Action, st: string)
    requires st in s.steps
  {
    act == FailStep(st) || (act.OperateStep? && act.stepId == st && Operated(s.steps[st], act.op) != s.steps[st])
  }

  lemma FailingKeepsOtherSteps(s: State, failed: string, st: string)
    requires failed in s.steps && st in s.steps && st != failed
    ensures FailLatestAttempt(s, failed).steps[st] == s.steps[st]
  {
  }

  // Reports never change a passed step; failing, restarting or completing it anew does.
  lemma PassedStepLeavesIff(s: State, act: Action, s': State, st: string)
    requires Next(s, act, s') && PassedStep(s, st)
    ensures st in s'.steps && (s'.steps[st] != s.steps[st] <==> TakesBack(s, act, st))
  {
    StepShape(s, act, s');
    if act.FailStep? && act.stepId != st { FailingKeepsOtherSteps(s, act.stepId, st); }
  }

  ghost predicate KeptAt(ss: seq<State>, acts: seq<Action>, k: nat, st: string)
    requires k < |acts| < |ss|
  {
    st in ss[k].steps ==> !TakesBack(ss[k], acts[k], st)
  }

  // Digest and end identity stay exactly until such a call.
  lemma {:induction false} PassedStepStays(ss: seq<State>, acts: seq<Action>, m: nat, n: nat, st: string)
    requires Trace(ss, acts) && m <= n <= |acts| && PassedStep(ss[m], st)
    requires forall k :: m <= k < n ==> KeptAt(ss, acts, k, st)
    ensures PassedStep(ss[n], st) && ss[n].steps[st] == ss[m].steps[st]
    ensures n < |acts| ==> st in ss[n + 1].steps
                           && (ss[n + 1].steps[st] != ss[m].steps[st] <==> TakesBack(ss[n], acts[n], st))
  {
    if m < n {
      PassedStepStays(ss, acts, m, n - 1, st);
      assert KeptAt(ss, acts, n - 1, st);
    }
    if n < |acts| {
      assert StepAt(ss, acts, n);
      PassedStepLeavesIff(ss[n], acts[n], ss[n + 1], st);
    }
  }

  // A report that settles a passed step settles it exactly as it passed.
  lemma RepeatedSettlementAgrees(s: State, act: Action, s': State)
    requires Next(s, act, s') && (act.Enter? || act.CheckpointAndSettle?)
    requires ProcOf(s', act.p).Settled? && ProcOf(s', act.p).attempt < |s'.rows|
    requires PassedStep(s, s'.rows[ProcOf(s', act.p).attempt].stepId)
    ensures (var row := s'.rows[ProcOf(s', act.p).attempt];
             && act.passed && act.resultDigest == s.steps[row.stepId].resultDigest
             && row.checkpoint.Some? && row.checkpoint.value.identity == s.steps[row.stepId].endIdentity)
    ensures s'.steps == s.steps
  {
    if act.Enter? {
      SettledByRecovery(s, act.p, act.checkpointOnly, act.active, act.direct, act.passed, act.resultDigest, s');
      var i := Inspect(s, ProcOf(s, act.p).payload);
      RecoveryAgrees(s, act.p, ProcOf(s, act.p).payload, i.attempt.value, act.passed, act.resultDigest, s');
    } else {
      CheckpointAgrees(s, act.p, act.checkpoint, act.passed, act.resultDigest, s');
    }
  }

  lemma SettledByRecovery(s: State, p: string, checkpointOnly: bool, active: Option<nat>, direct: Option<Row>, passed: bool,
                          resultDigest: string, s': State)
    requires EnterStep(s, p, checkpointOnly, active, direct, passed, resultDigest, s') && ProcOf(s', p).Settled?
    ensures (var i := Inspect(s, ProcOf(s, p).payload);
             && i.attempt.Some? && s.rows[i.attempt.value].checkpoint.Some?
             && RecoverStep(s, p, ProcOf(s, p).payload, i.attempt.value, passed, resultDigest, s')
             && s'.rows == s.rows && ProcOf(s', p).attempt == i.attempt.value)
  {
  }

  lemma RecoveryAgrees(s: State, p: string, payload: Payload, a: nat, passed: bool, resultDigest: string, s': State)
    requires a < |s.rows| && s.rows[a].checkpoint.Some? && PassedStep(s, s.rows[a].stepId)
    requires RecoverStep(s, p, payload, a, passed, resultDigest, s') && ProcOf(s', p).Settled?
    ensures ProcOf(s', p).attempt == a && s'.rows == s.rows && s'.steps == s.steps
    ensures passed && resultDigest == s.steps[s.rows[a].stepId].resultDigest
    ensures s.rows[a].checkpoint.value.identity == s.steps[s.rows[a].stepId].endIdentity
  {
  }

  lemma CheckpointAgrees(s: State, p: string, c: Checkpoint, passed: bool, resultDigest: string, s': State)
    requires CheckpointAndSettleStep(s, p, c, passed, resultDigest, s') && ProcOf(s', p).Settled?
    requires ProcOf(s', p).attempt < |s'.rows| && PassedStep(s, s'.rows[ProcOf(s', p).attempt].stepId)
    ensures (var row := s'.rows[ProcOf(s', p).attempt];
             row.checkpoint == Some(c) && passed && resultDigest == s.steps[row.stepId].resultDigest
             && c.identity == s.steps[row.stepId].endIdentity)
    ensures s'.steps == s.steps
  {
  }
}
