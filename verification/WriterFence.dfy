/**
 The external-writer fence. While a Host-owned worker attempt is live, other
 sessions may call report, next and revise in any order; only calls that were
 past the fence when the attempt began, and deliveries, get anywhere.
 */
module WriterFence {
  import opened Prelude
  import opened ReportProtocol
  import opened ReportSafety

  ghost predicate LiveWriter(s: State, h: nat) {
    h < |s.rows| && s.rows[h].kind == HostOwned && LiveRow(s.rows[h])
  }

  // ---- What moves while the writer is live ----

  ghost predicate BusySince(ss: seq<State>, b: nat, n: nat, p: string)
    requires n < |ss|
  {
    forall k :: b <= k <= n ==> !ProcOf(ss[k], p).Idle?
  }

  // The process has been inside one call since m, or since a delivery that began later.
  ghost predicate InFlight(ss: seq<State>, acts: seq<Action>, m: nat, n: nat, p: string)
    requires m <= n <= |acts| < |ss|
  {
    BusySince(ss, m, n, p)
    || exists b :: m <= b < n && acts[b].Begin? && acts[b].p == p && acts[b].delivery.DeliveryOf?
                   && BusySince(ss, b + 1, n, p)
  }

  lemma OnlyDeliveriesEnter(s: State, act: Action, s': State, h: nat, p: string)
    requires Next(s, act, s') && LiveWriter(s, h) && ProcOf(s, p).Idle? && !ProcOf(s', p).Idle?
    ensures act.Begin? && act.p == p && act.delivery.DeliveryOf?
  {
    assert PendingHostWorker(s, None);
    StepShape(s, act, s');
  }

  lemma {:induction false} BusyIsInFlight(ss: seq<State>, acts: seq<Action>, m: nat, n: nat, h: nat, p: string)
    requires Trace(ss, acts) && m <= n <= |acts| && forall k :: m <= k < n ==> LiveWriter(ss[k], h)
    requires !ProcOf(ss[n], p).Idle?
    ensures InFlight(ss, acts, m, n, p)
  {
    if m < n {
      assert StepAt(ss, acts, n - 1);
      if ProcOf(ss[n - 1], p).Idle? {
        OnlyDeliveriesEnter(ss[n - 1], acts[n - 1], ss[n], h, p);
        assert BusySince(ss, n, n, p);
      } else {
        BusyIsInFlight(ss, acts, m, n - 1, h, p);
        BusyGoesOn(ss, acts, m, n, p);
      }
    }
  }

  lemma BusyGoesOn(ss: seq<State>, acts: seq<Action>, m: nat, n: nat, p: string)
    requires m < n <= |acts| < |ss| && InFlight(ss, acts, m, n - 1, p) && !ProcOf(ss[n], p).Idle?
    ensures InFlight(ss, acts, m, n, p)
  {
    if BusySince(ss, m, n - 1, p) {
      assert BusySince(ss, m, n, p);
    } else {
      var b :| m <= b < n - 1 && acts[b].Begin? && acts[b].p == p && acts[b].delivery.DeliveryOf?
               && BusySince(ss, b + 1, n - 1, p);
      assert BusySince(ss, b + 1, n, p);
    }
  }

  // Only a report that was past the fence runs a proof or settles a step.
  predicate Works(act: Action) {
    act.Prove? || act.Enter? || act.CheckpointAndSettle? || act.CheckpointThenCrash?
  }

  // The directive a preparation hands out.
  ghost predicate Issues(s: State, s': State, directive: Directive) {
    s'.issued == s.issued + [directive]
  }

  lemma FencedStep(s: State, act: Action, s': State, h: nat)
    requires Next(s, act, s') && LiveWriter(s, h)
    ensures s'.proofs != s.proofs ==> act.Prove?
    ensures s'.steps != s.steps ==> OnSteps(act) || act.Enter? || act.CheckpointAndSettle? || act.CheckpointThenCrash?
    ensures Works(act) ==> !ProcOf(s, act.p).Idle?
    ensures s'.contractRevision == s.contractRevision
    ensures s'.issued != s.issued ==>
              act.PrepareNext?
              && (Issues(s, s', Reconcile)
                  || (act.settler.Some? && ProcOf(s, act.settler.value).Settled?
                      && ProcOf(s, act.settler.value).attempt == h))
  {
    assert PendingHostWorker(s, None);
    StepEffects(s, act, s');
    StepShape(s, act, s');
    if act.PrepareNext? && act.settler.Some? && ProcOf(s, act.settler.value).attempt != h {
      assert PendingHostWorker(s, Some(ProcOf(s, act.settler.value).attempt));
    }
  }

  // While the writer is live, whoever proves, settles or gets another directive than to
  // reconcile was inside its call before, or delivers; and the contract stays as it is.
  lemma OnlyEarlierCallsGoOn(ss: seq<State>, acts: seq<Action>, m: nat, n: nat, h: nat)
    requires Trace(ss, acts) && m <= n < |acts| && forall k :: m <= k <= n ==> LiveWriter(ss[k], h)
    ensures ss[n + 1].proofs != ss[n].proofs ==> acts[n].Prove? && InFlight(ss, acts, m, n, acts[n].p)
    ensures ss[n + 1].steps != ss[n].steps ==> OnSteps(acts[n]) || (Works(acts[n]) && InFlight(ss, acts, m, n, acts[n].p))
    ensures ss[n + 1].contractRevision == ss[n].contractRevision
    ensures ss[n + 1].issued != ss[n].issued ==>
              acts[n].PrepareNext?
              && (Issues(ss[n], ss[n + 1], Reconcile)
                  || (acts[n].settler.Some? && InFlight(ss, acts, m, n, acts[n].settler.value)
                      && ProcOf(ss[n], acts[n].settler.value).Settled?
                      && ProcOf(ss[n], acts[n].settler.value).attempt == h))
  {
    assert StepAt(ss, acts, n);
    FencedStep(ss[n], acts[n], ss[n + 1], h);
    if Works(acts[n]) { BusyIsInFlight(ss, acts, m, n, h, acts[n].p); }
    if acts[n].PrepareNext? && acts[n].settler.Some? && !ProcOf(ss[n], acts[n].settler.value).Idle? {
      BusyIsInFlight(ss, acts, m, n, h, acts[n].settler.value);
    }
  }

  // ---- With no call in flight others get nowhere ----

  // Calls and events that are no delivery and do not end the writer's own attempt.
  predicate OtherSession(s: State, act: Action, h: nat) {
    !(act.Begin? && act.delivery.DeliveryOf?)
    && !(act.PrepareNext? && act.settler.Some?)
    && !(act.RejectCandidate? && act.a == h) && act != Interrupt(h) && act != RecordFailedTurn(h)
    && !(act.FailStep? && AttemptToFail(s.rows, act.stepId) == Some(h))
  }

  ghost predicate AllIdle(s: State) {
    forall p :: p in s.procs ==> s.procs[p].Idle?
  }

  // What others can see move: nothing but the answers they were given.
  ghost predicate Fenced(s: State, s': State, h: nat) {
    LiveWriter(s', h) && s'.rows[h].result.None? && AllIdle(s')
    && s'.proofs == s.proofs && s'.contractRevision == s.contractRevision && s.issued <= s'.issued
    && forall k :: |s.issued| <= k < |s'.issued| ==> s'.issued[k] == Reconcile
  }

  lemma BeginIsFenced(s: State, p: string, payload: Payload, s': State, h: nat)
    requires Inv(s) && BeginStep(s, p, payload, NoDelivery, s') && AllIdle(s)
    requires LiveWriter(s, h) && s.rows[h].result.None?
    ensures Fenced(s, s', h) && s'.steps == s.steps
  {
    var i := Inspect(s, payload);
    InspectFacts(s, payload);
    assert PendingHostWorker(s, None);
    if i.comparison.Replay? {
      KeyLeadsHome(s, i.attempt.value);
      assert i.attempt.value != h;
    }
  }

  lemma OneStepIsFenced(s: State, act: Action, s': State, h: nat)
    requires Inv(s) && Next(s, act, s') && AllIdle(s) && OtherSession(s, act, h)
    requires LiveWriter(s, h) && s.rows[h].result.None?
    ensures Fenced(s, s', h) && (s'.steps == s.steps || OnSteps(act))
  {
    if act.Begin? {
      BeginIsFenced(s, act.p, act.payload, s', h);
    } else {
      StepEffects(s, act, s');
      StepShape(s, act, s');
      CallIsFenced(s, act, s', h);
    }
  }

  // With every process idle, only calls outside a report and crashes are left.
  lemma CallIsFenced(s: State, act: Action, s': State, h: nat)
    requires Next(s, act, s') && AllIdle(s) && OtherSession(s, act, h) && !act.Begin?
    requires LiveWriter(s, h) && s.rows[h].result.None?
    ensures Fenced(s, s', h)
  {
    if OfAReport(act) {
      assert act.Crash?;
    } else {
      assert PendingHostWorker(s, None);
      CallKeepsWriter(s, act, s', h);
    }
  }

  lemma CallKeepsWriter(s: State, act: Action, s': State, h: nat)
    requires Next(s, act, s') && OtherSession(s, act, h) && !OfAReport(act) && LiveWriter(s, h)
    ensures LiveWriter(s', h) && s'.rows[h].result == s.rows[h].result && s'.procs == s.procs && s'.proofs == s.proofs
  {
  }

  // Any sequence of other sessions' calls: no implement or fix directive is issued, no
  // proof runs, the contract stays as it is, and no step moves but by a direct call on it.
  lemma {:induction false} OthersGetNowhere(ss: seq<State>, acts: seq<Action>, m: nat, n: nat, h: nat)
    requires Trace(ss, acts) && Init(ss[0]) && m <= n <= |acts|
    requires AllIdle(ss[m]) && LiveWriter(ss[m], h) && ss[m].rows[h].result.None?
    requires forall k :: m <= k < n ==> OtherSession(ss[k], acts[k], h)
    ensures Fenced(ss[m], ss[n], h)
    ensures (forall k :: m <= k < n ==> !OnSteps(acts[k])) ==> ss[n].steps == ss[m].steps
  {
    if m < n {
      OthersGetNowhere(ss, acts, m, n - 1, h);
      FencedAt(ss, acts, n - 1, h);
      FencedTwice(ss[m], ss[n - 1], ss[n], h);
    }
  }

  lemma FencedAt(ss: seq<State>, acts: seq<Action>, k: nat, h: nat)
    requires Trace(ss, acts) && Init(ss[0]) && k < |acts| && OtherSession(ss[k], acts[k], h)
    requires AllIdle(ss[k]) && LiveWriter(ss[k], h) && ss[k].rows[h].result.None?
    ensures Fenced(ss[k], ss[k + 1], h) && (ss[k + 1].steps == ss[k].steps || OnSteps(acts[k]))
  {
    InitInv(ss[0]);
    TraceKeeps(ss, acts, 0, k);
    assert StepAt(ss, acts, k);
    OneStepIsFenced(ss[k], acts[k], ss[k + 1], h);
  }

  lemma FencedTwice(s: State, s': State, s'': State, h: nat)
    requires Fenced(s, s', h) && Fenced(s', s'', h)
    ensures Fenced(s, s'', h)
  {
    assert forall k :: |s.issued| <= k < |s'.issued| ==> s''.issued[k] == s'.issued[k];
  }

  // ---- How the fence opens ----

  // The attempt has a journalled result, and the step answers with it.
  ghost predicate AnsweredWithItsResult(s: State, s': State, h: nat) {
    h < |s'.rows| && s'.rows[h].result.Some? && |s'.replies| == |s.replies| + 1
    && (s'.replies[|s.replies|].response == Replayed(h, s'.rows[h].result.value)
        || s'.replies[|s.replies|].response == Answered(h, s'.rows[h].result.value))
  }

  // Ending the attempt by name, or by failing its step while it is the attempt that fails.
  predicate EndsAttempt(s: State, act: Action, h: nat) {
    (act.RejectCandidate? && act.a == h) || act == Interrupt(h) || act == RecordFailedTurn(h)
    || (act.FailStep? && AttemptToFail(s.rows, act.stepId) == Some(h))
  }

  // Which attempt failing a step takes while h is live: h exactly when it is the step's latest live one.
  lemma FailsTheLatestLive(s: State, stepId: string, h: nat)
    requires LiveWriter(s, h)
    ensures AttemptToFail(s.rows, stepId) == Some(h)
            <==> s.rows[h].stepId == stepId
                 && forall i :: h < i < |s.rows| && s.rows[i].stepId == stepId ==> !LiveRow(s.rows[i])
  {
  }

  // The fence opens exactly by such a call, or by answering with the journalled
  // result of the attempt, as settlement and replay do.
  lemma WriterLeavesIff(s: State, act: Action, s': State, h: nat)
    requires Inv(s) && Next(s, act, s') && LiveWriter(s, h)
    ensures !LiveWriter(s', h) <==> EndsAttempt(s, act, h) || AnsweredWithItsResult(s, s', h)
  {
    if OfAReport(act) {
      ReportLeavesIff(s, act, s', h);
    } else {
      CallsLeaveIff(s, act, s', h);
    }
  }

  lemma CallsLeaveIff(s: State, act: Action, s': State, h: nat)
    requires Next(s, act, s') && !OfAReport(act) && LiveWriter(s, h)
    ensures !LiveWriter(s', h) <==> EndsAttempt(s, act, h)
    ensures s'.replies == s.replies
  {
  }

  lemma ReportLeavesIff(s: State, act: Action, s': State, h: nat)
    requires Inv(s) && Next(s, act, s') && OfAReport(act) && LiveWriter(s, h)
    ensures !LiveWriter(s', h) <==> AnsweredWithItsResult(s, s', h)
  {
    match act
    case Begin(p, payload, delivery) => BeginLeaves(s, p, payload, delivery, s', h);
    case Enter(p, only, active, direct, passed, digest) => EnterLeaves(s, p, only, active, direct, passed, digest, s', h);
    case Bind(p) => BindLeaves(s, p, s', h);
    case SettleEarly(p, result) => SettleEarlyLeaves(s, p, result, s', h);
    case FinishReport(p) => FinishLeaves(s, p, s', h);
    case CheckpointAndSettle(p, c, passed, digest) => CheckpointKeepsWriters(s, p, c, passed, digest, s', h);
    case CheckpointThenCrash(p, c, reporting) => CheckpointCrashKeepsWriters(s, p, c, reporting, s', h);
    case Journal(p, result) => JournalKeepsWriters(s, p, result, s', h);
    case _ =>
  }

  // Replaying a's result ends h exactly when it is a.
  lemma ReplayLeaves(s: State, p: string, payload: Payload, a: nat, result: Answer, h: nat)
    requires LiveWriter(s, h) && a < |s.rows| && s.rows[a].result == Some(result)
    ensures (var s' := AnswerReplay(s, p, payload, a, result); !LiveWriter(s', h) <==> AnsweredWithItsResult(s, s', h))
  {
  }

  lemma BeginLeaves(s: State, p: string, payload: Payload, delivery: Delivery, s': State, h: nat)
    requires Inv(s) && BeginStep(s, p, payload, delivery, s') && LiveWriter(s, h)
    ensures !LiveWriter(s', h) <==> AnsweredWithItsResult(s, s', h)
  {
    InspectFacts(s, payload);
    var i := Inspect(s, payload);
    if i.comparison.Replay? && s' == AnswerReplay(s, p, payload, i.attempt.value, i.comparison.result) {
      ReplayLeaves(s, p, payload, i.attempt.value, i.comparison.result, h);
    }
  }

  lemma EnterLeaves(s: State, p: string, checkpointOnly: bool, active: Option<nat>, direct: Option<Row>, passed: bool,
                    resultDigest: string, s': State, h: nat)
    requires Inv(s) && EnterStep(s, p, checkpointOnly, active, direct, passed, resultDigest, s') && LiveWriter(s, h)
    ensures !LiveWriter(s', h) <==> AnsweredWithItsResult(s, s', h)
  {
    var payload := ProcOf(s, p).payload;
    var i := Inspect(s, payload);
    InspectFacts(s, payload);
    if i.comparison.Replay? {
      ReplayLeaves(s, p, payload, i.attempt.value, i.comparison.result, h);
    } else if i.attempt.Some? && s.rows[i.attempt.value].checkpoint.Some?
              && RecoverStep(s, p, payload, i.attempt.value, passed, resultDigest, s') {
      RecoverLeaves(s, p, payload, i.attempt.value, passed, resultDigest, s', h);
    }
  }

  lemma RecoverLeaves(s: State, p: string, payload: Payload, a: nat, passed: bool, resultDigest: string, s': State, h: nat)
    requires a < |s.rows| && s.rows[a].checkpoint.Some? && LiveWriter(s, h)
    requires RecoverStep(s, p, payload, a, passed, resultDigest, s')
    ensures LiveWriter(s', h) && !AnsweredWithItsResult(s, s', h)
  {
  }

  lemma BindLeaves(s: State, p: string, s': State, h: nat)
    requires Inv(s) && BindStep(s, p, s') && LiveWriter(s, h)
    ensures !LiveWriter(s', h) <==> AnsweredWithItsResult(s, s', h)
  {
    var payload, a := ProcOf(s, p).payload, ProcOf(s, p).attempt;
    KeyLeadsHome(s, a);
    if s.rows[a].key.Some? && s.rows[a].result.Some? && s.rows[a].digest == Some(payload.digest) {
      ReplayLeaves(s, p, payload, a, s.rows[a].result.value, h);
    }
  }

  lemma SettleEarlyLeaves(s: State, p: string, result: Answer, s': State, h: nat)
    requires Inv(s) && SettleEarlyStep(s, p, result, s') && LiveWriter(s, h)
    ensures !LiveWriter(s', h) <==> AnsweredWithItsResult(s, s', h)
  {
  }

  lemma FinishLeaves(s: State, p: string, s': State, h: nat)
    requires Inv(s) && FinishStep(s, p, s') && LiveWriter(s, h)
    ensures !LiveWriter(s', h) <==> AnsweredWithItsResult(s, s', h)
  {
    assert ProcOk(s, s.procs[p]);
  }

  lemma CheckpointKeepsWriters(s: State, p: string, c: Checkpoint, passed: bool, resultDigest: string, s': State, h: nat)
    requires CheckpointAndSettleStep(s, p, c, passed, resultDigest, s') && LiveWriter(s, h)
    ensures LiveWriter(s', h) && s'.replies == s.replies
  {
  }

  lemma CheckpointCrashKeepsWriters(s: State, p: string, c: Checkpoint, reporting: bool, s': State, h: nat)
    requires CheckpointThenCrashStep(s, p, c, reporting, s') && LiveWriter(s, h)
    ensures LiveWriter(s', h) && s'.replies == s.replies
  {
  }

  lemma JournalKeepsWriters(s: State, p: string, result: Answer, s': State, h: nat)
    requires JournalStep(s, p, result, s') && LiveWriter(s, h)
    ensures LiveWriter(s', h) && s'.replies == s.replies
  {
  }
}
