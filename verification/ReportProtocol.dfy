/**
 The report path: inspect, bind, prove, checkpoint, settle the step, journal the
 result, finish the attempt. Any number of processes run it at once and any of
 them may crash between two writes; the guarantees do not rely on the run lease.
 */
module ReportProtocol {
  import opened Prelude

  datatype Kind = OwnerSession | Routed | HostOwned

  datatype Status = Started | Reported | Verifying | Passed | Failed | Interrupted

  // The operation key hashes these fields; equal keys mean equal fields.
  datatype Key = Key(runId: string, stepId: string, planRevision: nat, attempt: nat)

  datatype Checkpoint = Checkpoint(planRevision: nat, mutationRevision: nat, identity: string, guarded: bool,
                                   gitRequested: bool, body: string)

  // The journalled answer of a report; only its verdict matters here.
  datatype Answer = Answer(passed: bool, body: string)

  // One attempt row; its attempt id is its position, so rows are only appended.
  datatype Row = Row(
    stepId: string,
    kind: Kind,
    status: Status,
    planRevision: nat,
    endIdentity: Option<string>,
    key: Option<Key>,
    digest: Option<string>,
    checkpoint: Option<Checkpoint>,
    result: Option<Answer>,
    receipt: Option<string>)   // the worker's execution receipt, by its content

  // Open is every state before a report: planned, ready, running, superseded.
  datatype StepState = Open | Reporting | StepPassed | StepFailed

  datatype Step = Step(state: StepState, resultDigest: string, endIdentity: string)

  datatype Payload = Payload(digest: string, attempt: Option<nat>, reportKey: Option<Key>, stepId: Option<string>)

  // Where a process is inside one report call; lost when it crashes.
  datatype Proc =
    | Idle
    | Entered(payload: Payload)
    | Admitted(payload: Payload, attempt: nat)
    | Bound(payload: Payload, attempt: nat)
    | Settled(payload: Payload, attempt: nat)
    | Journalled(payload: Payload, attempt: nat, result: Answer)

  // How a call arrives: as a plain report, or with the receipt of a delivered worker result.
  datatype Delivery = NoDelivery | DeliveryOf(receipt: Option<string>)

  datatype Response =
    | Conflict
    | Replayed(attempt: nat, result: Answer)
    | Answered(attempt: nat, result: Answer)
    | CheckpointStale
    | WorkerPending
    | Rejected

  datatype Reply = Reply(payload: Payload, response: Response)

  datatype Directive = Implement | Fix | Reconcile | OtherDirective

  datatype State = State(
    runId: string,
    planRevision: nat,
    mutationRevision: nat,
    contractRevision: nat,
    identity: string,   // recorded on the Run
    live: string,       // observed in the workspace
    gitAuthorized: bool,
    rows: seq<Row>,
    steps: map<string, Step>,
    procs: map<string, Proc>,
    proofs: seq<nat>,   // the attempts proofs ran for, in order
    replies: seq<Reply>,
    issued: seq<Directive>)

  predicate LiveRow(row: Row) {
    row.status in {Started, Reported, Verifying}
  }

  // ---- Inspection ----

  datatype Comparison = Unseen | InProgress | Replay(result: Answer) | PayloadConflict

  // Which attempt a payload answers, and whether that operation was seen.
  datatype Inspection = Inspection(attempt: Option<nat>, comparison: Comparison)

  function KeyOf(s: State, a: nat): Key
    requires a < |s.rows|
  {
    Key(s.runId, s.rows[a].stepId, s.rows[a].planRevision, a)
  }

  function FindKey(rows: seq<Row>, key: Key): (found: Option<nat>)
    ensures found.Some? ==> found.value < |rows| && rows[found.value].key == Some(key)
    ensures found.None? ==> forall i :: 0 <= i < |rows| ==> rows[i].key != Some(key)
  {
    if rows == [] then None
    else if rows[|rows| - 1].key == Some(key) then Some(|rows| - 1)
    else FindKey(rows[..|rows| - 1], key)
  }

  predicate Retransmits(s: State, row: Row, payload: Payload) {
    row.kind == OwnerSession && row.digest == Some(payload.digest)
    && (row.endIdentity == Some(s.live)
        || (row.endIdentity.None? && row.checkpoint.Some? && row.checkpoint.value.identity == s.live))
    && (payload.stepId.None? || payload.stepId == Some(row.stepId))
  }

  // An owner's report carries no attempt id: the latest row it repeats.
  function LastRetransmission(s: State, payload: Payload, n: nat): (found: Option<nat>)
    requires n <= |s.rows|
    ensures found.Some? ==> found.value < n
  {
    if n == 0 then None
    else if Retransmits(s, s.rows[n - 1], payload) then Some(n - 1)
    else LastRetransmission(s, payload, n - 1)
  }

  function CanonicalAttempt(s: State, payload: Payload): (a: Option<nat>)
    ensures a.Some? ==> a.value < |s.rows|
  {
    var identified := if payload.reportKey.Some? then FindKey(s.rows, payload.reportKey.value) else None;
    if identified.Some? then identified
    else
      var retransmission := if payload.attempt.None? && payload.reportKey.None?
                            then LastRetransmission(s, payload, |s.rows|) else None;
      if retransmission.Some? then retransmission
      else if payload.attempt.Some? && payload.attempt.value < |s.rows| then payload.attempt
      else None
  }

  function Compare(stored: Option<Row>, digest: string): Comparison {
    match stored
    case None => Unseen
    case Some(row) =>
      if row.digest != Some(digest) then PayloadConflict
      else if row.result.Some? then Replay(row.result.value)
      else InProgress
  }

  function Inspect(s: State, payload: Payload): Inspection {
    match CanonicalAttempt(s, payload)
    case None => Inspection(None, if payload.reportKey.Some? then PayloadConflict else Unseen)
    case Some(a) =>
      var stored := FindKey(s.rows, KeyOf(s, a));
      Inspection(Some(a), Compare(if stored.Some? then Some(s.rows[stored.value]) else None, payload.digest))
  }

  // ---- Writes ----

  // Writing the same value again is allowed, another value is not.
  predicate WriteOnce<T(==)>(current: Option<T>, next: T) {
    current.None? || current == Some(next)
  }

  function WithRow(s: State, a: nat, row: Row): State
    requires a < |s.rows|
  {
    s.(rows := s.rows[a := row])
  }

  // The end identity is written once: finishing a live attempt with another one throws.
  predicate Finishable(row: Row, end: Option<string>) {
    LiveRow(row) && end.Some? ==> WriteOnce(row.endIdentity, end.value)
  }

  // A finished attempt takes its verdict from the result and is not finished twice.
  function Finish(s: State, a: nat, passed: bool, end: Option<string>): State
    requires a < |s.rows|
  {
    if LiveRow(s.rows[a]) then
      WithRow(s, a, s.rows[a].(status := if passed then Passed else Failed,
                               endIdentity := if end.Some? then end else s.rows[a].endIdentity))
    else s
  }

  // A report ends where its checkpoint was observed.
  function EndOf(row: Row): Option<string> {
    if row.checkpoint.Some? then Some(row.checkpoint.value.identity) else None
  }

  // The latest attempt of a step, or the latest that is live.
  function LatestAttempt(rows: seq<Row>, stepId: string, live: bool): (found: Option<nat>)
    ensures found.Some? ==> found.value < |rows| && rows[found.value].stepId == stepId
                            && (live ==> LiveRow(rows[found.value]))
    ensures forall i :: (if found.Some? then found.value else -1) < i < |rows| && rows[i].stepId == stepId ==>
                          live && !LiveRow(rows[i])
  {
    if rows == [] then None
    else if rows[|rows| - 1].stepId == stepId && (live ==> LiveRow(rows[|rows| - 1])) then Some(|rows| - 1)
    else LatestAttempt(rows[..|rows| - 1], stepId, live)
  }

  function AttemptToFail(rows: seq<Row>, stepId: string): (found: Option<nat>)
    ensures found.Some? ==> found.value < |rows|
  {
    var live := LatestAttempt(rows, stepId, true);
    if live.Some? then live else LatestAttempt(rows, stepId, false)
  }

  // failStepAttempt asks nothing of the attempt, its provenance or the step's state.
  function FailLatestAttempt(s: State, stepId: string): State
    requires stepId in s.steps
  {
    var failed := AttemptToFail(s.rows, stepId);
    var rows := if failed.None? then s.rows
                else s.rows[failed.value := s.rows[failed.value].(
                       status := if s.rows[failed.value].status == Interrupted then Interrupted else Failed)];
    s.(rows := rows, steps := s.steps[stepId := s.steps[stepId].(state := StepFailed)])
  }

  // The step operations the control plane exposes beside reports; none looks at the state.
  datatype StepOperation = StartStep | CompleteStep(resultDigest: string, endIdentity: string) | MarkFailed

  function Operated(step: Step, op: StepOperation): Step {
    match op
    case StartStep => step.(state := Open)
    case CompleteStep(resultDigest, endIdentity) => Step(StepPassed, resultDigest, endIdentity)
    case MarkFailed => step.(state := StepFailed)
  }

  // A new plan supersedes what has not passed and adds its own steps.
  function Replanned(steps: map<string, Step>, added: set<string>): map<string, Step> {
    map st | st in steps.Keys + added ::
      if st !in steps then Step(Open, "", "")
      else if steps[st].state == StepPassed then steps[st]
      else steps[st].(state := Open)
  }

  function Go(s: State, p: string, proc: Proc): State {
    s.(procs := s.procs[p := proc])
  }

  function Say(s: State, p: string, payload: Payload, response: Response): State {
    Go(s.(replies := s.replies + [Reply(payload, response)]), p, Idle)
  }

  function ProcOf(s: State, p: string): Proc {
    if p in s.procs then s.procs[p] else Idle
  }

  predicate PendingHostWorker(s: State, except: Option<nat>) {
    exists a :: 0 <= a < |s.rows| && s.rows[a].kind == HostOwned && LiveRow(s.rows[a]) && except != Some(a)
  }

  // settleStep: a step that already passed must have passed exactly like this.
  function SettleStep(s: State, stepId: string, passed: bool, resultDigest: string, identity: string): Option<State> {
    if stepId !in s.steps then None
    else if s.steps[stepId].state == StepPassed then
      if passed && s.steps[stepId].resultDigest == resultDigest && s.steps[stepId].endIdentity == identity
      then Some(s) else None
    else
      var step := if passed then Step(StepPassed, resultDigest, identity)
                  else s.steps[stepId].(state := StepFailed);
      Some(s.(steps := s.steps[stepId := step]))
  }

  datatype Action =
    // A call begins: a plain report, or the settlement of a delivered worker result.
    | Begin(p: string, payload: Payload, delivery: Delivery)
    // Under the lease: replay, recover from a checkpoint, or admit the report.
    | Enter(p: string, checkpointOnly: bool, active: Option<nat>, direct: Option<Row>, passed: bool, resultDigest: string)
    | Bind(p: string)
    | Prove(p: string)
    | SettleEarly(p: string, result: Answer)
    // The journal write and settleStep run without a pause, but a crash may separate them.
    | CheckpointAndSettle(p: string, checkpoint: Checkpoint, passed: bool, resultDigest: string)
    | CheckpointThenCrash(p: string, checkpoint: Checkpoint, reporting: bool)
    | Journal(p: string, result: Answer)
    | FinishReport(p: string)
    | Reject(p: string)
    | Crash(p: string)
    // Other calls and the environment.
    | PrepareNext(settler: Option<string>, recoveryBlocked: bool, directive: Directive)
    | ReviseContract
    | NewAttempt(row: Row)
    | RecordReceipt(a: nat, receipt: string, identity: string)
    | RejectCandidate(a: nat, identity: string)
    | Interrupt(a: nat)
    // A failed usage receipt or a refused admission that names the attempt.
    | RecordFailedTurn(a: nat)
    | FailStep(stepId: string)
    | OperateStep(stepId: string, op: StepOperation)
    | Replan(added: set<string>)
    | AdvanceRun(planRevision: nat, mutationRevision: nat, identity: string)
    | Drift(live: string)

  // A report that replays answers with the journalled result and finishes its attempt.
  function AnswerReplay(s: State, p: string, payload: Payload, a: nat, result: Answer): State
    requires a < |s.rows|
  {
    Say(Finish(s, a, result.passed, None), p, payload, Replayed(a, result))
  }

  predicate Blank(row: Row) {
    row.status == Started && row.key.None? && row.digest.None? && row.checkpoint.None? && row.result.None?
    && row.endIdentity.None? && row.receipt.None?
  }

  predicate CurrentCheckpoint(s: State, c: Checkpoint) {
    c.planRevision == s.planRevision && c.mutationRevision == s.mutationRevision
  }

  // Settlement from a checkpoint: refused unless the Run has not moved on.
  ghost predicate RecoverStep(s: State, p: string, payload: Payload, a: nat, passed: bool, resultDigest: string, s': State)
    requires a < |s.rows| && s.rows[a].checkpoint.Some?
  {
    var c := s.rows[a].checkpoint.value;
    if s.rows[a].kind == HostOwned && !c.guarded then s' == Say(s, p, payload, CheckpointStale)
    else if !CurrentCheckpoint(s, c) || (s.live != s.identity && !(c.gitRequested && s.gitAuthorized)) then
      s' == Say(s, p, payload, CheckpointStale)
    else match SettleStep(s, s.rows[a].stepId, passed, resultDigest, c.identity)
      case None => s' == Go(s, p, Idle)
      case Some(settled) => s' == Go(settled, p, Settled(payload, a))
  }

  // A delivery is answered for no other attempt than its own, by the receipt stored for it.
  predicate SameReceipt(s: State, payload: Payload, attempt: Option<nat>, receipt: Option<string>) {
    attempt.Some? && attempt.value < |s.rows| && payload.attempt == attempt
    && s.rows[attempt.value].kind != OwnerSession
    && receipt.Some? && s.rows[attempt.value].receipt == receipt
  }

  ghost predicate BeginStep(s: State, p: string, payload: Payload, delivery: Delivery, s': State) {
    ProcOf(s, p).Idle?
    && (var i := Inspect(s, payload);
        if i.comparison.PayloadConflict? then s' == Say(s, p, payload, Conflict)
        else if delivery.DeliveryOf? && !SameReceipt(s, payload, i.attempt, delivery.receipt) then
          s' == Say(s, p, payload, Rejected)
        else if i.comparison.Replay? then
          i.attempt.Some? && s' == AnswerReplay(s, p, payload, i.attempt.value, i.comparison.result)
        else if delivery.NoDelivery? && PendingHostWorker(s, None) then s' == Say(s, p, payload, WorkerPending)
        else s' == Go(s, p, Entered(payload)))
  }

  ghost predicate EnterStep(s: State, p: string, checkpointOnly: bool, active: Option<nat>, direct: Option<Row>,
                            passed: bool, resultDigest: string, s': State) {
    ProcOf(s, p).Entered?
    && (var payload := ProcOf(s, p).payload;
        var i := Inspect(s, payload);
        match i.comparison
        case PayloadConflict => s' == Say(s, p, payload, Conflict)
        case Replay(result) => i.attempt.Some? && s' == AnswerReplay(s, p, payload, i.attempt.value, result)
        case _ =>
          if i.attempt.Some? && s.rows[i.attempt.value].checkpoint.Some? then
            RecoverStep(s, p, payload, i.attempt.value, passed, resultDigest, s')
          else if checkpointOnly then s' == Say(s, p, payload, CheckpointStale)
          else AdmitStep(s, p, payload, active, direct, s'))
  }

  // The attempt a fresh report works under: the named one, the active one, or a new row.
  ghost predicate AdmitStep(s: State, p: string, payload: Payload, active: Option<nat>, direct: Option<Row>, s': State) {
    if payload.attempt.Some? then
      payload.attempt.value < |s.rows| && s' == Go(s, p, Admitted(payload, payload.attempt.value))
    else if active.Some? then
      active.value < |s.rows| && LiveRow(s.rows[active.value]) && s' == Go(s, p, Admitted(payload, active.value))
    else
      direct.Some? && Blank(direct.value) && direct.value.kind == OwnerSession
      && s' == Go(s.(rows := s.rows + [direct.value]), p, Admitted(payload, |s.rows|))
  }

  ghost predicate BindStep(s: State, p: string, s': State) {
    ProcOf(s, p).Admitted? && ProcOf(s, p).attempt < |s.rows|
    && (var payload, a := ProcOf(s, p).payload, ProcOf(s, p).attempt;
        var key := KeyOf(s, a);
        var stored := FindKey(s.rows, key);
        match Compare(if stored.Some? then Some(s.rows[stored.value]) else None, payload.digest)
        case PayloadConflict => s' == Say(s, p, payload, Conflict)
        case Replay(result) => s' == AnswerReplay(s, p, payload, stored.value, result)
        case _ =>
          if WriteOnce(s.rows[a].key, key) && WriteOnce(s.rows[a].digest, payload.digest) then
            s' == Go(WithRow(s, a, s.rows[a].(key := Some(key), digest := Some(payload.digest))), p, Bound(payload, a))
          else s' == Say(s, p, payload, Conflict))
  }

  // A result that is journalled here fails the attempt, whatever state it was in.
  function RejectedRow(row: Row, result: Answer): Row {
    row.(result := Some(result), status := if row.result.None? || LiveRow(row) then Failed else row.status)
  }

  ghost predicate SettleEarlyStep(s: State, p: string, result: Answer, s': State) {
    ProcOf(s, p).Bound? && ProcOf(s, p).attempt < |s.rows|
    && (var payload, a := ProcOf(s, p).payload, ProcOf(s, p).attempt;
        if WriteOnce(s.rows[a].result, result) then
          s' == Say(WithRow(s, a, RejectedRow(s.rows[a], result)), p, payload, Answered(a, result))
        else s' == Go(s, p, Idle))
  }

  ghost predicate CheckpointAndSettleStep(s: State, p: string, c: Checkpoint, passed: bool, resultDigest: string, s': State) {
    ProcOf(s, p).Bound? && ProcOf(s, p).attempt < |s.rows| && CurrentCheckpoint(s, c)
    && (var payload, a := ProcOf(s, p).payload, ProcOf(s, p).attempt;
        if !WriteOnce(s.rows[a].checkpoint, c) then s' == Go(s, p, Idle)
        else
          var written := WithRow(s, a, s.rows[a].(checkpoint := Some(c)));
          match SettleStep(written, s.rows[a].stepId, passed, resultDigest, c.identity)
          case None => s' == Go(written, p, Idle)
          case Some(settled) => s' == Go(settled, p, Settled(payload, a)))
  }

  ghost predicate CheckpointThenCrashStep(s: State, p: string, c: Checkpoint, reporting: bool, s': State) {
    ProcOf(s, p).Bound? && ProcOf(s, p).attempt < |s.rows| && CurrentCheckpoint(s, c)
    && (var a := ProcOf(s, p).attempt;
        if !WriteOnce(s.rows[a].checkpoint, c) then s' == Go(s, p, Idle)
        else
          var written := WithRow(s, a, s.rows[a].(checkpoint := Some(c)));
          var st := s.rows[a].stepId;
          s' == Go(if reporting && st in s.steps && s.steps[st].state != StepPassed
                   then written.(steps := s.steps[st := s.steps[st].(state := Reporting)]) else written, p, Idle))
  }

  ghost predicate JournalStep(s: State, p: string, result: Answer, s': State) {
    ProcOf(s, p).Settled? && ProcOf(s, p).attempt < |s.rows|
    && (var payload, a := ProcOf(s, p).payload, ProcOf(s, p).attempt;
        if WriteOnce(s.rows[a].result, result) then
          s' == Go(WithRow(s, a, s.rows[a].(result := Some(result))), p, Journalled(payload, a, result))
        else s' == Go(s, p, Idle))
  }

  ghost predicate FinishStep(s: State, p: string, s': State) {
    ProcOf(s, p).Journalled? && ProcOf(s, p).attempt < |s.rows|
    && (var payload, a, result := ProcOf(s, p).payload, ProcOf(s, p).attempt, ProcOf(s, p).result;
        var end := EndOf(s.rows[a]);
        if Finishable(s.rows[a], end) then s' == Say(Finish(s, a, result.passed, end), p, payload, Answered(a, result))
        else s' == Go(s, p, Idle))
  }

  // Only the settlement of a Host-owned attempt may look past that attempt.
  ghost predicate PrepareNextStep(s: State, settler: Option<string>, recoveryBlocked: bool, directive: Directive, s': State) {
    (settler.Some? ==> ProcOf(s, settler.value).Settled?)
    && (var except := if settler.Some? then Some(ProcOf(s, settler.value).attempt) else None;
        s' == s.(issued := s.issued
                           + [if recoveryBlocked || PendingHostWorker(s, except) then Reconcile else directive]))
  }

  ghost predicate Next(s: State, act: Action, s': State) {
    match act
    case Begin(p, payload, delivery) => BeginStep(s, p, payload, delivery, s')
    case Enter(p, checkpointOnly, active, direct, passed, resultDigest) =>
      EnterStep(s, p, checkpointOnly, active, direct, passed, resultDigest, s')
    case Bind(p) => BindStep(s, p, s')
    case Prove(p) => ProcOf(s, p).Bound? && s' == s.(proofs := s.proofs + [ProcOf(s, p).attempt])
    case SettleEarly(p, result) => SettleEarlyStep(s, p, result, s')
    case CheckpointAndSettle(p, c, passed, resultDigest) => CheckpointAndSettleStep(s, p, c, passed, resultDigest, s')
    case CheckpointThenCrash(p, c, reporting) => CheckpointThenCrashStep(s, p, c, reporting, s')
    case Journal(p, result) => JournalStep(s, p, result, s')
    case FinishReport(p) => FinishStep(s, p, s')
    case Reject(p) => ProcOf(s, p).Admitted? && s' == Say(s, p, ProcOf(s, p).payload, Rejected)
    case Crash(p) => s' == Go(s, p, Idle)
    case PrepareNext(settler, recoveryBlocked, directive) => PrepareNextStep(s, settler, recoveryBlocked, directive, s')
    case ReviseContract =>
      s' == if PendingHostWorker(s, None) then s else s.(contractRevision := s.contractRevision + 1)
    case NewAttempt(row) => Blank(row) && s' == s.(rows := s.rows + [row])
    case RecordReceipt(a, receipt, identity) =>
      a < |s.rows| && WriteOnce(s.rows[a].receipt, receipt) && WriteOnce(s.rows[a].endIdentity, identity)
      && s' == WithRow(s, a, s.rows[a].(receipt := Some(receipt), endIdentity := Some(identity)))
    case RejectCandidate(a, identity) =>
      a < |s.rows| && s.rows[a].kind == HostOwned && s.rows[a].status == Started
      && WriteOnce(s.rows[a].endIdentity, identity)
      && s.rows[a].stepId in s.steps && s.steps[s.rows[a].stepId].state == Open
      && s' == WithRow(s, a, s.rows[a].(status := Failed, endIdentity := Some(identity))).(
                 steps := s.steps[s.rows[a].stepId := s.steps[s.rows[a].stepId].(state := StepFailed)])
    case Interrupt(a) =>
      a < |s.rows| && LiveRow(s.rows[a]) && s' == WithRow(s, a, s.rows[a].(status := Interrupted))
    case RecordFailedTurn(a) => a < |s.rows| && s' == WithRow(s, a, s.rows[a].(status := Interrupted))
    case FailStep(stepId) => stepId in s.steps && s' == FailLatestAttempt(s, stepId)
    case OperateStep(stepId, op) =>
      stepId in s.steps && s' == s.(steps := s.steps[stepId := Operated(s.steps[stepId], op)])
    case Replan(added) => s' == s.(planRevision := s.planRevision + 1, steps := Replanned(s.steps, added))
    case AdvanceRun(planRevision, mutationRevision, identity) =>
      s.planRevision <= planRevision && s.mutationRevision <= mutationRevision
      && s' == s.(planRevision := planRevision, mutationRevision := mutationRevision, identity := identity)
    case Drift(live) => s' == s.(live := live)
  }

  ghost predicate StepAt(ss: seq<State>, acts: seq<Action>, i: nat)
    requires i < |acts| < |ss|
  {
    Next(ss[i], acts[i], ss[i + 1])
  }

  ghost predicate Trace(ss: seq<State>, acts: seq<Action>) {
    |ss| == |acts| + 1 && forall i :: 0 <= i < |acts| ==> StepAt(ss, acts, i)
  }

  ghost predicate Init(s: State) {
    s.procs == map[] && s.replies == [] && s.proofs == [] && forall i :: 0 <= i < |s.rows| ==> Blank(s.rows[i])
  }
}
