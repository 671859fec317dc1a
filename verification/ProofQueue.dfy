/**
 Running a report's proof queue: the early-stop gate, and the report-local
 cache that lets obligations with the same command share one execution.
 */
module ProofQueue {
  import opened Prelude
  import opened JsText
  import opened Sorting
  import opened VerificationSettlement
  import opened ProofPlanner

  // A workspace is its identity: the digest of its contents, taken as injective.
  type Workspace = Text

  datatype Invocation = Invocation(commandRef: Text, timeoutMs: Option<nat>, networkPolicy: Text)

  // One run of a trusted command, or a refusal that stops the report.
  datatype Run = Ran(passed: bool, exitCode: int, workspace: Workspace) | Refused(code: Text)

  // A request with the authoritative scope of its obligation.
  datatype Job = Job(request: Request, authority: Option<Authority>)

  // The Host: what a command does, what a scope observes, and how the workspace
  // drifts before each job for reasons outside the report.
  datatype Host = Host(
    exec: (Invocation, Workspace) -> Run,
    observeScope: (Authority, Workspace) -> Option<Text>,
    drift: (nat, Workspace) -> Workspace)

  datatype RunRow = RunRow(source: Text, contractRevision: nat, mutationRevision: nat, identity: Option<Workspace>)

  datatype Record = Record(passed: bool, exitCode: int)

  datatype Failure = Failure(obligationId: Text, scope: Scope)

  datatype Executed = Executed(obligationId: Text, passed: bool, exitCode: int, flaky: bool, mutated: bool)

  datatype World = World(
    workspace: Workspace,
    row: RunRow,
    records: map<Text, Record>,
    failures: seq<Failure>,
    executed: seq<Executed>,
    stopped: Option<Text>)

  // ---- One proof ----

  // The revision advances only when an observed identity replaces another.
  function Observe(row: RunRow, identity: Workspace): RunRow {
    if row.identity == Some(identity) then row
    else row.(identity := Some(identity),
              mutationRevision := if row.identity.None? then row.mutationRevision else row.mutationRevision + 1)
  }

  datatype Evidence = Evidence(commandRef: Text, source: Option<Workspace>, networkPolicy: Text,
                               freshness: seq<Text>, scopeDigest: Option<Text>)

  // What a proof depended on; with an observed scope the whole-tree digest is left out.
  function EvidenceOf(host: Host, job: Job, workspace: Workspace): Evidence {
    var scope := if job.authority.Some? then host.observeScope(job.authority.value, workspace) else None;
    Evidence(job.request.commandRef,
             if scope.Some? then None else Some(workspace),
             job.request.networkPolicy,
             if job.authority.Some? then job.authority.value.freshnessInputs else [],
             scope)
  }

  function InvocationOf(request: Request): Invocation {
    Invocation(request.commandRef, request.timeoutMs, request.networkPolicy)
  }

  datatype Outcome = Outcome(run: Run, flaky: bool)

  // A failing flaky-guarded command runs once more; disagreement marks it flaky.
  function Execute(host: Host, request: Request, workspace: Workspace): Outcome {
    var first := host.exec(InvocationOf(request), workspace);
    if !request.flakyRerun || first.Refused? || first.passed then Outcome(first, false)
    else
      var second := host.exec(InvocationOf(request), first.workspace);
      Outcome(second, second.Ran? && second.passed != first.passed)
  }

  datatype Execution = Execution(
    passed: bool,
    exitCode: int,
    recorded: Record,
    flaky: bool,
    mutated: bool,
    commandRef: Text,
    networkPolicy: Text,
    workspace: Workspace,
    mutationRevision: nat,
    evidence: Evidence)

  function RecordOf(run: Run, flaky: bool, mutated: bool): Record
    requires run.Ran?
  {
    var passed := run.passed && !flaky && !mutated;
    Record(passed, if !passed && run.exitCode == 0 then 1 else run.exitCode)
  }

  // The row after a proof that left the workspace at `after`.
  function RowAfter(row: RunRow, before: Workspace, after: Workspace): RunRow {
    var observed := Observe(row, before);
    if after != before then Observe(observed, after) else observed
  }

  function ExecutionOf(host: Host, job: Job, row: RunRow, workspace: Workspace): Execution
    requires Execute(host, job.request, workspace).run.Ran?
  {
    var outcome := Execute(host, job.request, workspace);
    var run := outcome.run;
    var mutated := run.workspace != workspace;
    Execution(run.passed, run.exitCode, RecordOf(run, outcome.flaky, mutated), outcome.flaky, mutated,
              job.request.commandRef, job.request.networkPolicy, run.workspace,
              RowAfter(row, workspace, run.workspace).mutationRevision, EvidenceOf(host, job, workspace))
  }

  // Recording one executed proof in the report.
  function Note(w: World, job: Job, e: Execution): World {
    w.(records := w.records[job.request.obligationId := e.recorded],
       executed := w.executed + [Executed(job.request.obligationId, e.recorded.passed, e.exitCode, e.flaky, e.mutated)],
       failures := if e.recorded.passed then w.failures
                   else w.failures + [Failure(job.request.obligationId, job.request.scope)])
  }

  // ---- The plain queue: every request executes ----

  predicate GateOpen(failures: seq<Failure>, request: Request) {
    forall f :: f in failures ==> Rank(request.scope) <= Rank(f.scope)
  }

  function PlainStep(host: Host, i: nat, job: Job, w: World): World {
    var workspace := host.drift(i, w.workspace);
    var outcome := Execute(host, job.request, workspace);
    match outcome.run
    case Refused(code) => w.(workspace := workspace, row := Observe(w.row, workspace), stopped := Some(code))
    case Ran(_, _, after) =>
      Note(w.(workspace := after, row := RowAfter(w.row, workspace, after)), job,
           ExecutionOf(host, job, w.row, workspace))
  }

  function Plain(host: Host, jobs: seq<Job>, i: nat, w: World): World
    requires i <= |jobs|
    decreases |jobs| - i
  {
    if i == |jobs| || w.stopped.Some? || !GateOpen(w.failures, jobs[i].request) then w
    else Plain(host, jobs, i + 1, PlainStep(host, i, jobs[i], w))
  }

  // ---- What a proof leaves, said by the runs of its command alone ----

  function FirstRun(host: Host, q: Request, before: Workspace): Run {
    host.exec(Invocation(q.commandRef, q.timeoutMs, q.networkPolicy), before)
  }

  // A flaky-guarded command that failed runs once more, on the workspace it left.
  predicate RunsTwice(host: Host, q: Request, before: Workspace) {
    q.flakyRerun && match FirstRun(host, q, before) case Ran(passed, _, _) => !passed case Refused(_) => false
  }

  // The run that counts.
  function LastRun(host: Host, q: Request, before: Workspace): Run {
    match FirstRun(host, q, before)
    case Ran(false, _, left) =>
      if q.flakyRerun then host.exec(Invocation(q.commandRef, q.timeoutMs, q.networkPolicy), left)
      else FirstRun(host, q, before)
    case _ => FirstRun(host, q, before)
  }

  // A second run that passes disagrees with the first, which failed.
  predicate Disagrees(host: Host, q: Request, before: Workspace) {
    RunsTwice(host, q, before) && LastRun(host, q, before).Ran? && LastRun(host, q, before).passed
  }

  // The run that counts passed, a repeated one agreed, and the workspace is as it was.
  predicate Proves(host: Host, q: Request, before: Workspace) {
    match LastRun(host, q, before)
    case Ran(passed, _, after) => passed && !Disagrees(host, q, before) && after == before
    case Refused(_) => false
  }

  // The command's own exit code, but never zero for a proof that did not pass.
  function ExitCode(host: Host, q: Request, before: Workspace): int
    requires LastRun(host, q, before).Ran?
  {
    var code := LastRun(host, q, before).exitCode;
    if code != 0 || Proves(host, q, before) then code else 1
  }

  lemma ExecutesAsRun(host: Host, job: Job, row: RunRow, before: Workspace)
    ensures Execute(host, job.request, before).run == LastRun(host, job.request, before)
    ensures LastRun(host, job.request, before).Ran? ==>
              (var q, e := job.request, ExecutionOf(host, job, row, before);
               && e.recorded == Record(Proves(host, q, before), ExitCode(host, q, before))
               && e.flaky == Disagrees(host, q, before) && e.exitCode == LastRun(host, q, before).exitCode
               && e.mutated == (LastRun(host, q, before).workspace != before))
  {
  }

  // ---- What the queue leaves ----

  // The workspace after the first k proofs, of which each started in the one given for it.
  function LeftAt(host: Host, jobs: seq<Job>, start: Workspace, befores: seq<Workspace>, k: nat): Workspace
    requires k <= |befores| <= |jobs|
  {
    if k == 0 then start
    else match LastRun(host, jobs[k - 1].request, befores[k - 1])
      case Ran(_, _, after) => after
      case Refused(_) => befores[k - 1]
  }

  ghost predicate StartsAt(host: Host, jobs: seq<Job>, start: Workspace, befores: seq<Workspace>, k: nat)
    requires k < |befores| <= |jobs|
  {
    befores[k] == host.drift(k, LeftAt(host, jobs, start, befores, k)) && LastRun(host, jobs[k].request, befores[k]).Ran?
  }

  // Each proof starts where the one before left the workspace, but for what the outside did since.
  ghost predicate Trail(host: Host, jobs: seq<Job>, start: Workspace, befores: seq<Workspace>) {
    |befores| <= |jobs| && forall k :: 0 <= k < |befores| ==> StartsAt(host, jobs, start, befores, k)
  }

  // The obligations of the proofs that did not pass, in order.
  function Unproved(host: Host, jobs: seq<Job>, befores: seq<Workspace>): seq<Failure>
    requires |befores| <= |jobs|
  {
    if befores == [] then []
    else
      var k := |befores| - 1;
      Unproved(host, jobs, befores[..k])
      + (if Proves(host, jobs[k].request, befores[k]) then []
         else [Failure(jobs[k].request.obligationId, jobs[k].request.scope)])
  }

  // The k-th proof is entered and recorded as it ran; of two for one obligation the later record stays.
  ghost predicate Entered(host: Host, jobs: seq<Job>, befores: seq<Workspace>, k: nat, executed: seq<Executed>, first: nat)
    requires k < |befores| <= |jobs| && first + |befores| <= |executed|
  {
    var q, before := jobs[k].request, befores[k];
    LastRun(host, q, before).Ran?
    && executed[first + k] == Executed(q.obligationId, Proves(host, q, before), LastRun(host, q, before).exitCode,
                         Disagrees(host, q, before), LastRun(host, q, before).workspace != before)
  }

  ghost predicate LastOf(jobs: seq<Job>, n: nat, k: nat)
    requires k < n <= |jobs|
  {
    forall j :: k < j < n ==> jobs[j].request.obligationId != jobs[k].request.obligationId
  }

  ghost predicate Recorded(host: Host, jobs: seq<Job>, befores: seq<Workspace>, k: nat, records: map<Text, Record>)
    requires k < |befores| <= |jobs|
  {
    var q, before := jobs[k].request, befores[k];
    LastRun(host, q, before).Ran? && q.obligationId in records
    && records[q.obligationId] == Record(Proves(host, q, before), ExitCode(host, q, before))
  }

  ghost predicate Untouched(jobs: seq<Job>, n: nat, id: Text)
    requires n <= |jobs|
  {
    forall k :: 0 <= k < n ==> jobs[k].request.obligationId != id
  }

  // Entries, records and failures are the report's own, and then exactly those of the proofs.
  ghost predicate Reported(host: Host, jobs: seq<Job>, start: World, befores: seq<Workspace>, w: World)
    requires |befores| <= |jobs|
  {
    && |w.executed| == |start.executed| + |befores| && w.executed[..|start.executed|] == start.executed
    && (forall k :: 0 <= k < |befores| ==> Entered(host, jobs, befores, k, w.executed, |start.executed|))
    && (forall k :: 0 <= k < |befores| && LastOf(jobs, |befores|, k) ==> Recorded(host, jobs, befores, k, w.records))
    && (forall id :: Untouched(jobs, |befores|, id) ==>
          (id in w.records <==> id in start.records) && (id in start.records ==> w.records[id] == start.records[id]))
    && w.failures == start.failures + Unproved(host, jobs, befores)
  }

  // A failure of a narrower scope: a focused one holds back integration and goal, an integration one goal.
  predicate Behind(failures: seq<Failure>, scope: Scope) {
    exists f :: f in failures && !NoWider(scope, f.scope)
  }

  lemma GateOpenIff(failures: seq<Failure>, request: Request)
    ensures GateOpen(failures, request) <==> !Behind(failures, request.scope)
  {
    forall f | f in failures
      ensures Rank(request.scope) <= Rank(f.scope) <==> NoWider(request.scope, f.scope)
    {
      RankIsNoWider(request.scope, f.scope);
    }
  }

  // No proof ran behind a failure known by then.
  ghost predicate Allowed(host: Host, jobs: seq<Job>, start: World, befores: seq<Workspace>)
    requires |befores| <= |jobs|
  {
    forall k :: 0 <= k < |befores| ==>
      !Behind(start.failures + Unproved(host, jobs, befores[..k]), jobs[k].request.scope)
  }

  // The workspaces observed: each proof's before and after.
  function Seen(host: Host, jobs: seq<Job>, befores: seq<Workspace>): seq<Workspace>
    requires |befores| <= |jobs|
  {
    if befores == [] then []
    else Seen(host, jobs, befores[..|befores| - 1])
         + [befores[|befores| - 1], LeftAt(host, jobs, befores[0], befores, |befores|)]
  }

  // How often an observation found another workspace than the one known before it.
  function Changes(known: Option<Workspace>, seen: seq<Workspace>): nat {
    if seen == [] then 0
    else
      var n := |seen| - 1;
      var last := if n == 0 then known else Some(seen[n - 1]);
      Changes(known, seen[..n]) + (if last.Some? && last != Some(seen[n]) then 1 else 0)
  }

  function RowSeeing(row: RunRow, seen: seq<Workspace>): RunRow {
    if seen == [] then row
    else row.(identity := Some(seen[|seen| - 1]), mutationRevision := row.mutationRevision + Changes(row.identity, seen))
  }

  lemma ObservingSees(row: RunRow, seen: seq<Workspace>, identity: Workspace)
    ensures Observe(RowSeeing(row, seen), identity) == RowSeeing(row, seen + [identity])
  {
    assert (seen + [identity])[..|seen|] == seen;
  }

  // The world after these proofs, while the report goes on.
  ghost predicate RanSo(host: Host, jobs: seq<Job>, start: World, befores: seq<Workspace>, w: World) {
    && Trail(host, jobs, start.workspace, befores) && Reported(host, jobs, start, befores, w)
    && Allowed(host, jobs, start, befores)
    && w.stopped.None? && w.workspace == LeftAt(host, jobs, start.workspace, befores, |befores|)
    && w.row == RowSeeing(start.row, Seen(host, jobs, befores))
  }

  // The world after these proofs and a command that was refused.
  ghost predicate RefusedAt(host: Host, jobs: seq<Job>, start: World, befores: seq<Workspace>, w: World) {
    && |befores| < |jobs| && w.stopped.Some?
    && Trail(host, jobs, start.workspace, befores) && Reported(host, jobs, start, befores, w)
    && Allowed(host, jobs, start, befores) && !Behind(w.failures, jobs[|befores|].request.scope)
    && w.workspace == host.drift(|befores|, LeftAt(host, jobs, start.workspace, befores, |befores|))
    && LastRun(host, jobs[|befores|].request, w.workspace) == Refused(w.stopped.value)
    && w.row == RowSeeing(start.row, Seen(host, jobs, befores) + [w.workspace])
  }

  // One proof more, recorded as it ran.
  lemma ReportsOneMore(host: Host, jobs: seq<Job>, start: World, befores: seq<Workspace>, w: World, before: Workspace, w': World)
    requires |befores| < |jobs| && Reported(host, jobs, start, befores, w)
    requires LastRun(host, jobs[|befores|].request, before).Ran?
    requires (var q := jobs[|befores|].request;
              && w'.records == w.records[q.obligationId := Record(Proves(host, q, before), ExitCode(host, q, before))]
              && w'.executed == w.executed + [Executed(
                   q.obligationId, Proves(host, q, before), LastRun(host, q, before).exitCode,
                   Disagrees(host, q, before), LastRun(host, q, before).workspace != before)]
              && w'.failures == w.failures + (if Proves(host, q, before) then [] else [Failure(q.obligationId, q.scope)]))
    ensures Reported(host, jobs, start, befores + [before], w')
  {
    var n, after := |befores|, befores + [before];
    assert after[..n] == befores;
    forall k | 0 <= k <= n ensures Entered(host, jobs, after, k, w'.executed, |start.executed|) {
      if k < n { assert Entered(host, jobs, befores, k, w.executed, |start.executed|); }
    }
    forall k | 0 <= k <= n && LastOf(jobs, n + 1, k) ensures Recorded(host, jobs, after, k, w'.records) {
      if k < n { assert LastOf(jobs, n, k) && Recorded(host, jobs, befores, k, w.records); }
    }
    forall id | Untouched(jobs, n + 1, id)
      ensures (id in w'.records <==> id in start.records) && (id in start.records ==> w'.records[id] == start.records[id])
    {
      assert Untouched(jobs, n, id);
    }
  }

  lemma AllowsOneMore(host: Host, jobs: seq<Job>, start: World, befores: seq<Workspace>, before: Workspace)
    requires |befores| < |jobs| && Allowed(host, jobs, start, befores)
    requires !Behind(start.failures + Unproved(host, jobs, befores), jobs[|befores|].request.scope)
    ensures Allowed(host, jobs, start, befores + [before])
  {
    var after := befores + [before];
    assert after[..|befores|] == befores;
    forall k | 0 <= k < |befores| ensures after[..k] == befores[..k] {}
  }

  lemma TrailGoesOn(host: Host, jobs: seq<Job>, start: Workspace, befores: seq<Workspace>, before: Workspace)
    requires |befores| < |jobs| && Trail(host, jobs, start, befores)
    requires before == host.drift(|befores|, LeftAt(host, jobs, start, befores, |befores|))
    requires LastRun(host, jobs[|befores|].request, before).Ran?
    ensures Trail(host, jobs, start, befores + [before])
  {
    var after := befores + [before];
    forall k | 0 <= k <= |befores| ensures StartsAt(host, jobs, start, after, k) {
      LeftAtStays(host, jobs, start, befores, before, k);
      if k < |befores| { assert StartsAt(host, jobs, start, befores, k) && after[k] == befores[k]; }
    }
  }

  lemma LeftAtStays(host: Host, jobs: seq<Job>, start: Workspace, befores: seq<Workspace>, before: Workspace, k: nat)
    requires k <= |befores| < |jobs|
    ensures LeftAt(host, jobs, start, befores + [before], k) == LeftAt(host, jobs, start, befores, k)
  {
  }

  lemma SeesOneMore(host: Host, jobs: seq<Job>, row: RunRow, befores: seq<Workspace>, before: Workspace)
    requires |befores| < |jobs| && LastRun(host, jobs[|befores|].request, before).Ran?
    ensures (var after := LastRun(host, jobs[|befores|].request, before).workspace;
             RowAfter(RowSeeing(row, Seen(host, jobs, befores)), before, after)
             == RowSeeing(row, Seen(host, jobs, befores + [before])))
  {
    var seen, after := Seen(host, jobs, befores), LastRun(host, jobs[|befores|].request, before).workspace;
    assert (befores + [before])[..|befores|] == befores;
    ObservingSees(row, seen, before);
    ObservingSees(row, seen + [before], after);
    assert seen + [before] + [after] == seen + [before, after];
  }

  lemma RefusedEnds(host: Host, jobs: seq<Job>, start: World, befores: seq<Workspace>, w: World, before: Workspace, code: Text)
    requires |befores| < |jobs| && RanSo(host, jobs, start, befores, w) && GateOpen(w.failures, jobs[|befores|].request)
    requires before == host.drift(|befores|, w.workspace)
    requires Execute(host, jobs[|befores|].request, before).run == Refused(code)
    ensures RefusedAt(host, jobs, start, befores, w.(workspace := before, row := Observe(w.row, before), stopped := Some(code)))
  {
    GateOpenIff(w.failures, jobs[|befores|].request);
    ExecutesAsRun(host, jobs[|befores|], w.row, before);
    ObservingSees(start.row, Seen(host, jobs, befores), before);
  }

  lemma RunsOneMore(host: Host, jobs: seq<Job>, start: World, befores: seq<Workspace>, w: World, before: Workspace)
    requires |befores| < |jobs| && RanSo(host, jobs, start, befores, w) && GateOpen(w.failures, jobs[|befores|].request)
    requires before == host.drift(|befores|, w.workspace) && Execute(host, jobs[|befores|].request, before).run.Ran?
    ensures RanSo(host, jobs, start, befores + [before], PlainStep(host, |befores|, jobs[|befores|], w))
  {
    var job := jobs[|befores|];
    GateOpenIff(w.failures, job.request);
    ExecutesAsRun(host, job, w.row, before);
    ReportsOneMore(host, jobs, start, befores, w, before, PlainStep(host, |befores|, job, w));
    AllowsOneMore(host, jobs, start, befores, before);
    TrailGoesOn(host, jobs, start.workspace, befores, before);
    SeesOneMore(host, jobs, start.row, befores, before);
  }

  // ---- The report-local cache ----

  datatype Key = Key(
    commandRef: Text,
    timeoutMs: Option<nat>,
    networkPolicy: Text,
    flakyRerun: bool,
    allowEvidenceReuse: bool,
    source: Text,
    identity: Option<Workspace>,
    mutationRevision: nat,
    contractRevision: nat,
    authority: Option<Authority>,
    scopeIdentity: Option<Text>)

  function KeyOf(job: Job, row: RunRow, scopeIdentity: Option<Text>): Key {
    Key(job.request.commandRef, job.request.timeoutMs, job.request.networkPolicy, job.request.flakyRerun,
        job.request.allowEvidenceReuse, row.source, row.identity, row.mutationRevision, row.contractRevision,
        job.authority, scopeIdentity)
  }

  // Frozen when the report's queue starts.
  datatype Context = Context(source: Text, contractRevision: nat, mutationRevision: nat)

  // The full freshness check made before a cached execution is recorded again.
  predicate Reusable(host: Host, context: Context, e: Execution, job: Job, row: RunRow, workspace: Workspace) {
    context == Context(row.source, row.contractRevision, row.mutationRevision)
    && !e.mutated
    && e.mutationRevision == row.mutationRevision
    && e.workspace == workspace
    && e.commandRef == job.request.commandRef
    && e.networkPolicy == job.request.networkPolicy
    && e.evidence == EvidenceOf(host, job, workspace)
  }

  // A cached execution is what its key's command does in its workspace.
  ghost predicate Faithful(host: Host, key: Key, e: Execution) {
    forall request: Request ::
      request.commandRef == key.commandRef && request.timeoutMs == key.timeoutMs
      && request.networkPolicy == key.networkPolicy && request.flakyRerun == key.flakyRerun
      ==> (var outcome := Execute(host, request, e.workspace);
           outcome.run.Ran? && outcome.run.workspace == e.workspace
           && outcome.run.passed == e.passed && outcome.run.exitCode == e.exitCode && outcome.flaky == e.flaky
           && e.recorded == RecordOf(outcome.run, outcome.flaky, false) && !e.mutated)
  }

  lemma CleanExecutionIsFaithful(host: Host, job: Job, row: RunRow, workspace: Workspace, key: Key)
    requires Execute(host, job.request, workspace).run.Ran?
    requires !ExecutionOf(host, job, row, workspace).mutated
    requires key.commandRef == job.request.commandRef && key.timeoutMs == job.request.timeoutMs
    requires key.networkPolicy == job.request.networkPolicy && key.flakyRerun == job.request.flakyRerun
    ensures Faithful(host, key, ExecutionOf(host, job, row, workspace))
  {
    forall request: Request |
      request.commandRef == key.commandRef && request.timeoutMs == key.timeoutMs
      && request.networkPolicy == key.networkPolicy && request.flakyRerun == key.flakyRerun
      ensures Execute(host, request, workspace) == Execute(host, job.request, workspace)
    {
      assert InvocationOf(request) == InvocationOf(job.request);
    }
  }

  // Recording a reusable cached execution is exactly what executing would record.
  lemma ReuseIsExecution(host: Host, i: nat, job: Job, w: World, key: Key, e: Execution, context: Context)
    requires Faithful(host, key, e)
    requires key.commandRef == job.request.commandRef && key.timeoutMs == job.request.timeoutMs
    requires key.networkPolicy == job.request.networkPolicy && key.flakyRerun == job.request.flakyRerun
    requires (var workspace := host.drift(i, w.workspace);
              Reusable(host, context, e, job, Observe(w.row, workspace), workspace))
    ensures PlainStep(host, i, job, w)
            == Note(w.(workspace := e.workspace, row := Observe(w.row, e.workspace)), job, e)
  {
    var workspace := host.drift(i, w.workspace);
    var outcome := Execute(host, job.request, workspace);
    assert outcome.run.Ran? && outcome.run.workspace == workspace;
  }

  ghost predicate AllFaithful(host: Host, cache: map<Key, Execution>) {
    forall key :: key in cache ==> Faithful(host, key, cache[key])
  }

  // One request of the loop: shared if the cache has a reusable execution, and else executed.
  method ProveJob(host: Host, i: nat, job: Job, w: World, context: Context, cache: map<Key, Execution>)
    returns (after: World, left: map<Key, Execution>)
    requires AllFaithful(host, cache)
    ensures after == PlainStep(host, i, job, w) && AllFaithful(host, left)
  {
    var scopeIdentity := if job.authority.Some? then host.observeScope(job.authority.value, w.workspace) else None;
    var key := KeyOf(job, w.row, scopeIdentity);
    left := cache;
    // Between the lookup and the proof the workspace may have drifted.
    var workspace := host.drift(i, w.workspace);
    var row := Observe(w.row, workspace);
    if key in cache {
      if Reusable(host, context, cache[key], job, row, workspace) {
        ReuseIsExecution(host, i, job, w, key, cache[key], context);
        return Note(w.(workspace := workspace, row := row), job, cache[key]), left;
      }
      left := left - {key};
    }
    var outcome := Execute(host, job.request, workspace);
    if outcome.run.Refused? {
      return w.(workspace := workspace, row := row, stopped := Some(outcome.run.code)), left;
    }
    var execution := ExecutionOf(host, job, w.row, workspace);
    after := Note(w.(workspace := outcome.run.workspace, row := RowAfter(w.row, workspace, outcome.run.workspace)),
                  job, execution);
    if !execution.mutated {
      var storedKey := KeyOf(job, after.row, scopeIdentity);
      CleanExecutionIsFaithful(host, job, w.row, workspace, storedKey);
      left := left[storedKey := execution];
    }
  }

  // The report's loop. With its cache it leaves the same records, failures,
  // workspace and Run row as running every request, whatever a proof or the
  // outside does to the workspace in between; what it leaves is what the commands
  // did where they ran, and it ends with the queue, behind a failure of a narrower
  // scope, or at a command the Host refuses.
  method RunQueue(host: Host, jobs: seq<Job>, start: World) returns (w: World, ghost befores: seq<Workspace>)
    requires start.stopped.None?
    ensures w == Plain(host, jobs, 0, start)
    ensures w.stopped.None? ==>
              RanSo(host, jobs, start, befores, w)
              && (|befores| == |jobs| || Behind(w.failures, jobs[|befores|].request.scope))
    ensures w.stopped.Some? ==> RefusedAt(host, jobs, start, befores, w)
  {
    w, befores := start, [];
    var context := Context(start.row.source, start.row.contractRevision, start.row.mutationRevision);
    var cache: map<Key, Execution> := map[];
    for i := 0 to |jobs|
      invariant |befores| == i && RanSo(host, jobs, start, befores, w)
      invariant Plain(host, jobs, i, w) == Plain(host, jobs, 0, start)
      invariant AllFaithful(host, cache)
    {
      GateOpenIff(w.failures, jobs[i].request);
      if exists f :: f in w.failures && Rank(f.scope) < Rank(jobs[i].request.scope) {
        return;
      }
      ghost var workspace := host.drift(i, w.workspace);
      ghost var before := w;
      w, cache := ProveJob(host, i, jobs[i], w, context, cache);
      if w.stopped.Some? {
        RefusedEnds(host, jobs, start, befores, before, workspace, w.stopped.value);
        return;
      }
      RunsOneMore(host, jobs, start, befores, before, workspace);
      befores := befores + [workspace];
    }
  }

  // ---- The early-stop gate ----

  predicate NarrowFirstJobs(jobs: seq<Job>) {
    forall i, j :: 0 <= i < j < |jobs| ==> NoWider(jobs[i].request.scope, jobs[j].request.scope)
  }

  // Some prefix of the queue ran, and the gate tells exactly which: a request
  // ran if and only if no failure, given or found, is of a narrower scope.
  ghost predicate GateIsExact(jobs: seq<Job>, i: nat, w: World, done: World) {
    && |w.executed| <= |done.executed| && |done.executed| - |w.executed| <= |jobs| - i
    && done.executed[..|w.executed|] == w.executed
    && (forall k :: i <= k < i + |done.executed| - |w.executed| ==>
          done.executed[|w.executed| + k - i].obligationId == jobs[k].request.obligationId)
    && (forall k :: i <= k < |jobs| ==>
          (k < i + |done.executed| - |w.executed| <==> !Behind(done.failures, jobs[k].request.scope)))
  }

  lemma {:induction false} GateRunsExactly(host: Host, jobs: seq<Job>, i: nat, w: World)
    requires i <= |jobs| && NarrowFirstJobs(jobs)
    requires forall k :: i <= k < |jobs| ==> forall j :: 0 <= j < i ==> NoWider(jobs[j].request.scope, jobs[k].request.scope)
    requires Plain(host, jobs, i, w).stopped.None?
    ensures GateIsExact(jobs, i, w, Plain(host, jobs, i, w))
    ensures w.failures <= Plain(host, jobs, i, w).failures
    ensures forall f :: f in Plain(host, jobs, i, w).failures && f !in w.failures ==>
              exists k :: i <= k < |jobs| && f == Failure(jobs[k].request.obligationId, jobs[k].request.scope)
    decreases |jobs| - i
  {
    if i < |jobs| { GateOpenIff(w.failures, jobs[i].request); }
    if i == |jobs| || w.stopped.Some? {
    } else if !GateOpen(w.failures, jobs[i].request) {
      GateStaysClosed(jobs, i, w);
    } else {
      var next := PlainStep(host, i, jobs[i], w);
      GateRunsExactly(host, jobs, i + 1, next);
      var done := Plain(host, jobs, i, w);
      StaysOpen(jobs, i, w, next, done);
      GateStep(jobs, i, w, next, done);
    }
  }

  // Narrow scopes come first: past a closed gate every later gate is closed.
  lemma GateStaysClosed(jobs: seq<Job>, i: nat, w: World)
    requires i < |jobs| && NarrowFirstJobs(jobs) && Behind(w.failures, jobs[i].request.scope)
    ensures GateIsExact(jobs, i, w, w)
  {
    var f :| f in w.failures && !NoWider(jobs[i].request.scope, f.scope);
    forall k | i <= k < |jobs| ensures Behind(w.failures, jobs[k].request.scope) {
      assert NoWider(jobs[i].request.scope, jobs[k].request.scope);
    }
  }

  lemma GateStep(jobs: seq<Job>, i: nat, w: World, next: World, done: World)
    requires i < |jobs| && GateIsExact(jobs, i + 1, next, done) && !Behind(done.failures, jobs[i].request.scope)
    requires |next.executed| == |w.executed| + 1 && next.executed[..|w.executed|] == w.executed
    requires next.executed[|w.executed|].obligationId == jobs[i].request.obligationId
    ensures GateIsExact(jobs, i, w, done)
  {
    var n := |w.executed|;
    assert done.executed[..n + 1][..n] == done.executed[..n];
    assert done.executed[..n + 1][n] == done.executed[n];
  }

  lemma StaysOpen(jobs: seq<Job>, i: nat, w: World, next: World, done: World)
    requires i < |jobs| && NarrowFirstJobs(jobs) && !Behind(w.failures, jobs[i].request.scope)
    requires next.failures == w.failures
             || next.failures == w.failures + [Failure(jobs[i].request.obligationId, jobs[i].request.scope)]
    requires forall f :: f in done.failures && f !in next.failures ==>
               exists k :: i + 1 <= k < |jobs| && f == Failure(jobs[k].request.obligationId, jobs[k].request.scope)
    ensures !Behind(done.failures, jobs[i].request.scope)
  {
    forall f | f in done.failures ensures NoWider(jobs[i].request.scope, f.scope) {
      if f !in next.failures {
        var k :| i + 1 <= k < |jobs| && f == Failure(jobs[k].request.obligationId, jobs[k].request.scope);
      }
    }
  }

  // One report, from its queue, counting the failures it came with: after a focused
  // failure no integration or goal request runs, after an integration failure no goal
  // request, and nothing else is held back.
  lemma EarlyStopIsExact(host: Host, jobs: seq<Job>, start: World)
    requires NarrowFirstJobs(jobs) && Plain(host, jobs, 0, start).stopped.None?
    ensures GateIsExact(jobs, 0, start, Plain(host, jobs, 0, start))
  {
    GateRunsExactly(host, jobs, 0, start);
  }

  // With no failure at the end, nothing was skipped.
  lemma NoFailureRunsAll(host: Host, jobs: seq<Job>, start: World)
    requires NarrowFirstJobs(jobs) && Plain(host, jobs, 0, start).stopped.None?
    requires Plain(host, jobs, 0, start).failures == []
    ensures |Plain(host, jobs, 0, start).executed| == |start.executed| + |jobs|
  {
    GateRunsExactly(host, jobs, 0, start);
    var done := Plain(host, jobs, 0, start);
    if |jobs| > 0 { assert !Behind(done.failures, jobs[|jobs| - 1].request.scope); }
  }
}
