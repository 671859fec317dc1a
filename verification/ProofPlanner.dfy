/** Which proofs a report runs, and in which order. */
module ProofPlanner {
  import opened Prelude
  import opened JsText
  import opened Sorting
  import opened OrderedMap
  import opened VerificationSettlement

  // A verification hint of a report; rerun merges its three ways to ask for a fresh proof.
  datatype Hint = Hint(
    obligationId: Text,
    commandRef: Option<Text>,
    timeoutMs: Option<nat>,
    acceptanceCoverage: Option<seq<Text>>,
    networkPolicy: Option<Text>,
    flakyRerun: bool,
    rerun: bool)

  datatype PlanStep = PlanStep(stepId: Text, settled: bool, passed: bool, obligationIds: seq<Text>)

  datatype StepInfo = StepInfo(stepId: Text, synthetic: bool, acceptanceIds: seq<Text>, obligationIds: seq<Text>)

  datatype Plan = Plan(
    obligations: seq<Obligation>,
    candidateMutation: bool,
    unsatisfied: seq<Text>,
    acceptanceCovered: seq<Text>,
    hints: seq<Hint>,
    step: Option<StepInfo>,
    planSteps: seq<PlanStep>,
    revalidatePassed: bool,
    // The command bound to an obligation, given the hint's preference.
    select: (Obligation, Option<Text>) -> Option<Text>,
    // The canonical form of a coverage claim; None where normalising it throws.
    canonicalCoverage: (Obligation, seq<Text>) -> Option<seq<Text>>,
    refLe: (Text, Text) -> bool)

  datatype Request = Request(
    obligationId: Text,
    commandRef: Text,
    scope: Scope,
    timeoutMs: Option<nat>,
    acceptanceCoverage: seq<Text>,
    networkPolicy: Text,
    flakyRerun: bool,
    allowEvidenceReuse: bool)

  // One call of the closure that pushes a request.
  datatype Call = Call(obligationId: Text, hint: Hint, forceFresh: bool, automatic: bool)

  datatype PlanError = BoundProofUnavailable

  const DEFAULT: Text := [0x64, 0x65, 0x66, 0x61, 0x75, 0x6C, 0x74]

  const INHERITED: Text := [0x69, 0x6E, 0x68, 0x65, 0x72, 0x69, 0x74, 0x65, 0x64]

  const NO_HINT := Hint([], None, None, None, None, false, false)

  // Obligation ids are unique in a Run; of a repeated id the last row counts.
  function ById(obligations: seq<Obligation>, id: Text): Option<Obligation> {
    if obligations == [] then None
    else if obligations[|obligations| - 1].id == id then Some(obligations[|obligations| - 1])
    else ById(obligations[..|obligations| - 1], id)
  }

  function HintObligationId(hint: Hint, obligations: seq<Obligation>): Text {
    if hint.obligationId != [] then hint.obligationId
    else if ById(obligations, DEFAULT).Some? then DEFAULT
    else if hint.commandRef.Some? then hint.commandRef.value else []
  }

  function Requested(plan: Plan, n: nat): Entries<Text, Hint>
    requires n <= |plan.hints|
  {
    if n == 0 then []
    else Set(Requested(plan, n - 1), HintObligationId(plan.hints[n - 1], plan.obligations), plan.hints[n - 1])
  }

  predicate FinalWorkUnit(plan: Plan) {
    plan.step.Some?
    && forall s :: s in plan.planSteps && s.stepId != plan.step.value.stepId ==> s.settled
  }

  predicate OfStep(plan: Plan, id: Text) {
    plan.step.Some?
    && (id in plan.step.value.obligationIds
        || exists o :: o in plan.obligations && o.id == id
                       && exists a :: a in o.acceptanceIds && a in plan.step.value.acceptanceIds)
  }

  predicate OfPassedStep(plan: Plan, id: Text) {
    plan.revalidatePassed && FinalWorkUnit(plan)
    && exists s :: s in plan.planSteps && s.stepId != plan.step.value.stepId && s.passed && id in s.obligationIds
  }

  // A wider proof waits for the last work unit.
  predicate Premature(plan: Plan, id: Text) {
    SettlementScope(ById(plan.obligations, id), plan.refLe) != Focused && !FinalWorkUnit(plan) && plan.step.Some?
  }

  // A focused proof nobody asked for belongs to another unit.
  predicate Unrelated(plan: Plan, id: Text, hinted: bool) {
    SettlementScope(ById(plan.obligations, id), plan.refLe) == Focused && !hinted
    && plan.step.Some? && !plan.step.value.synthetic && !OfStep(plan, id) && !OfPassedStep(plan, id)
  }

  predicate CoverageNeedsProof(plan: Plan, id: Text, hint: Hint) {
    var o := ById(plan.obligations, id);
    o.Some? && hint.acceptanceCoverage.Some? && hint.acceptanceCoverage.value != []
    && plan.canonicalCoverage(o.value, hint.acceptanceCoverage.value).Some?
    && exists a :: a in plan.canonicalCoverage(o.value, hint.acceptanceCoverage.value).value
                   && a !in plan.acceptanceCovered
  }

  function Outstanding(plan: Plan): seq<Text> {
    Dedupe(if plan.candidateMutation then seq(|plan.obligations|, i requires 0 <= i < |plan.obligations| => plan.obligations[i].id)
           else plan.unsatisfied)
  }

  // ---- The calls, in order: outstanding, newly covered, explicitly fresh ----

  function OutstandingCalls(plan: Plan, requested: Entries<Text, Hint>, ids: seq<Text>): seq<Call> {
    if ids == [] then []
    else
      var id := ids[|ids| - 1];
      var hint := Get(requested, id);
      OutstandingCalls(plan, requested, ids[..|ids| - 1])
      + (if Premature(plan, id) || Unrelated(plan, id, hint.Some?) then []
         else [Call(id, if hint.Some? then hint.value else NO_HINT, false, hint.None?)])
  }

  function CoverageCalls(plan: Plan, outstanding: seq<Text>, requested: Entries<Text, Hint>): seq<Call> {
    if requested == [] then []
    else
      var (id, hint) := requested[|requested| - 1];
      CoverageCalls(plan, outstanding, requested[..|requested| - 1])
      + (if id !in outstanding && CoverageNeedsProof(plan, id, hint) then [Call(id, hint, false, false)] else [])
  }

  function FreshCalls(plan: Plan, hints: seq<Hint>): seq<Call> {
    if hints == [] then []
    else
      var hint := hints[|hints| - 1];
      var id := HintObligationId(hint, plan.obligations);
      FreshCalls(plan, hints[..|hints| - 1])
      + (if hint.rerun && !Premature(plan, id) then [Call(id, hint, true, false)] else [])
  }

  function Calls(plan: Plan): seq<Call> {
    var requested := Requested(plan, |plan.hints|);
    OutstandingCalls(plan, requested, Outstanding(plan))
    + CoverageCalls(plan, Outstanding(plan), requested)
    + FreshCalls(plan, plan.hints)
  }

  // ---- What one call does ----

  predicate Hard(plan: Plan, c: Call) {
    ById(plan.obligations, c.obligationId).Some? && ById(plan.obligations, c.obligationId).value.hard
  }

  function Command(plan: Plan, c: Call): Option<Text>
    requires Hard(plan, c)
  {
    plan.select(ById(plan.obligations, c.obligationId).value, if c.automatic then None else c.hint.commandRef)
  }

  predicate Eligible(plan: Plan, c: Call) {
    Hard(plan, c) && Command(plan, c).Some?
  }

  predicate Unbound(plan: Plan, c: Call) {
    plan.candidateMutation && Hard(plan, c) && Command(plan, c).None?
  }

  function PositiveTimeout(ms: Option<nat>): Option<nat> {
    if ms.Some? && ms.value > 0 then ms else None
  }

  function RequestOf(plan: Plan, c: Call): Request
    requires Eligible(plan, c)
  {
    var o := ById(plan.obligations, c.obligationId).value;
    Request(
      o.id,
      Command(plan, c).value,
      SettlementScope(Some(o), plan.refLe),
      if PositiveTimeout(c.hint.timeoutMs).Some? then PositiveTimeout(c.hint.timeoutMs) else PositiveTimeout(o.timeoutMs),
      if c.automatic then o.acceptanceIds
      else if c.hint.acceptanceCoverage.Some? then c.hint.acceptanceCoverage.value else [],
      if c.hint.networkPolicy.Some? then c.hint.networkPolicy.value else INHERITED,
      c.hint.flakyRerun,
      !c.forceFresh && !c.hint.flakyRerun)
  }

  // q was pushed by the first eligible call for its obligation; a later fresh
  // call only forbids reuse.
  ghost predicate MadeBy(plan: Plan, calls: seq<Call>, q: Request) {
    exists k :: 0 <= k < |calls| && MadeAt(plan, calls, q, k)
  }

  ghost predicate MadeAt(plan: Plan, calls: seq<Call>, q: Request, k: nat)
    requires k < |calls|
  {
    && Eligible(plan, calls[k]) && calls[k].obligationId == q.obligationId
    && (forall j :: 0 <= j < k && calls[j].obligationId == q.obligationId ==> !Eligible(plan, calls[j]))
    && q == RequestOf(plan, calls[k]).(
         allowEvidenceReuse := !calls[k].hint.flakyRerun && !Forced(plan, calls, q.obligationId))
  }

  ghost predicate Forced(plan: Plan, calls: seq<Call>, id: Text) {
    exists c :: c in calls && Eligible(plan, c) && c.obligationId == id && c.forceFresh
  }

  // The queue after these calls: one request per eligible obligation.
  ghost predicate Queue(plan: Plan, calls: seq<Call>, requests: seq<Request>) {
    && (forall i, j :: 0 <= i < j < |requests| ==> requests[i].obligationId != requests[j].obligationId)
    && (forall q :: q in requests ==> MadeBy(plan, calls, q))
    && (forall c :: c in calls && Eligible(plan, c) ==> exists q :: q in requests && q.obligationId == c.obligationId)
  }

  // The call that pushed the request for an obligation.
  ghost predicate FirstCall(plan: Plan, calls: seq<Call>, id: Text, k: nat) {
    k < |calls| && Eligible(plan, calls[k]) && calls[k].obligationId == id
    && forall j :: 0 <= j < k && calls[j].obligationId == id ==> !Eligible(plan, calls[j])
  }

  ghost predicate Called(plan: Plan, calls: seq<Call>, left: Request, right: Request) {
    forall k: nat, l: nat :: FirstCall(plan, calls, left.obligationId, k) && FirstCall(plan, calls, right.obligationId, l) ==> k < l
  }

  // The requests stand in the order of the calls that pushed them.
  ghost predicate InCallOrder(plan: Plan, calls: seq<Call>, requests: seq<Request>) {
    forall i, j :: 0 <= i < j < |requests| ==> Called(plan, calls, requests[i], requests[j])
  }

  // So do those of one scope, wherever others were sorted between them.
  ghost predicate InCallOrderByScope(plan: Plan, calls: seq<Call>, requests: seq<Request>) {
    forall i, j :: 0 <= i < j < |requests| && requests[i].scope == requests[j].scope ==>
      Called(plan, calls, requests[i], requests[j])
  }

  // No integration or goal request stands before a focused one, and no goal before an integration one.
  predicate NarrowFirst(requests: seq<Request>) {
    forall i, j :: 0 <= i < j < |requests| ==> NoWider(requests[i].scope, requests[j].scope)
  }

  lemma FirstCallStays(plan: Plan, calls: seq<Call>, c: Call, q: Request, k: nat)
    requires MadeBy(plan, calls, q) && FirstCall(plan, calls + [c], q.obligationId, k)
    ensures FirstCall(plan, calls, q.obligationId, k)
  {
    var m :| 0 <= m < |calls| && MadeAt(plan, calls, q, m);
    assert (calls + [c])[m] == calls[m];
    assert k <= m && (calls + [c])[k] == calls[k];
    forall j | 0 <= j < k && calls[j].obligationId == q.obligationId ensures !Eligible(plan, calls[j]) {
      assert (calls + [c])[j] == calls[j];
    }
  }

  lemma CalledStays(plan: Plan, calls: seq<Call>, c: Call, left: Request, right: Request)
    requires MadeBy(plan, calls, left) && MadeBy(plan, calls, right) && Called(plan, calls, left, right)
    ensures Called(plan, calls + [c], left, right)
  {
    forall k: nat, l: nat | FirstCall(plan, calls + [c], left.obligationId, k) && FirstCall(plan, calls + [c], right.obligationId, l)
      ensures k < l
    {
      FirstCallStays(plan, calls, c, left, k);
      FirstCallStays(plan, calls, c, right, l);
    }
  }

  lemma CalledLast(plan: Plan, calls: seq<Call>, c: Call, left: Request, right: Request)
    requires MadeBy(plan, calls, left) && right.obligationId == c.obligationId
    requires forall d :: d in calls && Eligible(plan, d) ==> d.obligationId != c.obligationId
    ensures Called(plan, calls + [c], left, right)
  {
    forall k: nat, l: nat | FirstCall(plan, calls + [c], left.obligationId, k) && FirstCall(plan, calls + [c], right.obligationId, l)
      ensures k < l
    {
      FirstCallStays(plan, calls, c, left, k);
      assert forall j :: 0 <= j < |calls| ==> (calls + [c])[j] == calls[j] && calls[j] in calls;
      assert l == |calls|;
    }
  }

  // Marking a request changes neither its obligation nor its place.
  lemma OrderSurvives(plan: Plan, calls: seq<Call>, c: Call, requests: seq<Request>, after: seq<Request>)
    requires Queue(plan, calls, requests) && InCallOrder(plan, calls, requests) && |after| == |requests|
    requires forall i :: 0 <= i < |after| ==> after[i].obligationId == requests[i].obligationId
    ensures InCallOrder(plan, calls + [c], after)
  {
    forall i, j | 0 <= i < j < |after| ensures Called(plan, calls + [c], after[i], after[j]) {
      assert requests[i] in requests && requests[j] in requests;
      CalledStays(plan, calls, c, requests[i], requests[j]);
    }
  }

  lemma PushedComesLast(plan: Plan, calls: seq<Call>, c: Call, requests: seq<Request>, q: Request)
    requires Queue(plan, calls, requests) && InCallOrder(plan, calls, requests) && q.obligationId == c.obligationId
    requires forall i :: 0 <= i < |requests| ==> requests[i].obligationId != c.obligationId
    ensures InCallOrder(plan, calls + [c], requests + [q])
  {
    OrderSurvives(plan, calls, c, requests, requests);
    forall d | d in calls && Eligible(plan, d) ensures d.obligationId != c.obligationId {
      var r :| r in requests && r.obligationId == d.obligationId;
    }
    var after := requests + [q];
    forall i, j | 0 <= i < j < |after| ensures Called(plan, calls + [c], after[i], after[j]) {
      if j == |requests| {
        assert requests[i] in requests;
        CalledLast(plan, calls, c, requests[i], q);
      }
    }
  }

  lemma ByIdHasId(obligations: seq<Obligation>, id: Text)
    ensures ById(obligations, id).Some? ==> ById(obligations, id).value.id == id && ById(obligations, id).value in obligations
  {
  }

  lemma ForcedOneMore(plan: Plan, calls: seq<Call>, c: Call, id: Text)
    ensures Forced(plan, calls + [c], id)
            <==> Forced(plan, calls, id) || (Eligible(plan, c) && c.obligationId == id && c.forceFresh)
  {
    if Forced(plan, calls, id) {
      var f :| f in calls && Eligible(plan, f) && f.obligationId == id && f.forceFresh;
      assert f in calls + [c];
    }
    assert c in calls + [c];
  }

  lemma MadeByStays(plan: Plan, calls: seq<Call>, c: Call, q: Request)
    requires MadeBy(plan, calls, q)
    requires !Eligible(plan, c) || c.obligationId != q.obligationId || !c.forceFresh
    ensures MadeBy(plan, calls + [c], q)
  {
    var k :| 0 <= k < |calls| && MadeAt(plan, calls, q, k);
    var calls' := calls + [c];
    ForcedOneMore(plan, calls, c, q.obligationId);
    assert calls'[k] == calls[k] && forall j :: 0 <= j < k ==> calls'[j] == calls[j];
    assert MadeAt(plan, calls', q, k);
  }

  lemma MadeByForced(plan: Plan, calls: seq<Call>, c: Call, q: Request)
    requires MadeBy(plan, calls, q) && Eligible(plan, c) && c.obligationId == q.obligationId && c.forceFresh
    ensures MadeBy(plan, calls + [c], q.(allowEvidenceReuse := false))
  {
    var k :| 0 <= k < |calls| && MadeAt(plan, calls, q, k);
    var calls' := calls + [c];
    ForcedOneMore(plan, calls, c, q.obligationId);
    assert calls'[k] == calls[k] && forall j :: 0 <= j < k ==> calls'[j] == calls[j];
    assert MadeAt(plan, calls', q.(allowEvidenceReuse := false), k);
  }

  lemma PushedIsMade(plan: Plan, calls: seq<Call>, c: Call, requests: seq<Request>)
    requires Queue(plan, calls, requests) && Eligible(plan, c)
    requires forall i :: 0 <= i < |requests| ==> requests[i].obligationId != c.obligationId
    ensures MadeBy(plan, calls + [c], RequestOf(plan, c)) && RequestOf(plan, c).obligationId == c.obligationId
  {
    ByIdHasId(plan.obligations, c.obligationId);
    var calls' := calls + [c];
    var q := RequestOf(plan, c);
    assert calls'[|calls|] == c && c in calls';
    forall j | 0 <= j < |calls| && calls'[j].obligationId == c.obligationId ensures !Eligible(plan, calls'[j]) {
      assert calls'[j] == calls[j] && calls[j] in calls;
    }
    ForcedOneMore(plan, calls, c, c.obligationId);
    forall f | f in calls && Eligible(plan, f) ensures f.obligationId != c.obligationId {
      var q :| q in requests && q.obligationId == f.obligationId;
    }
    assert MadeAt(plan, calls', q, |calls|);
  }

  lemma SkipKeepsQueue(plan: Plan, calls: seq<Call>, c: Call, requests: seq<Request>)
    requires Queue(plan, calls, requests) && !Eligible(plan, c)
    ensures Queue(plan, calls + [c], requests)
  {
    forall q | q in requests ensures MadeBy(plan, calls + [c], q) { MadeByStays(plan, calls, c, q); }
  }

  lemma SameIdsServe(plan: Plan, calls: seq<Call>, c: Call, requests: seq<Request>, i: nat, marked: seq<Request>)
    requires Queue(plan, calls, requests) && i < |requests| && requests[i].obligationId == c.obligationId
    requires |marked| == |requests| && forall j :: 0 <= j < |marked| ==> marked[j].obligationId == requests[j].obligationId
    ensures forall d :: d in calls + [c] && Eligible(plan, d) ==> exists q :: q in marked && q.obligationId == d.obligationId
  {
    forall d | d in calls + [c] && Eligible(plan, d)
      ensures exists q :: q in marked && q.obligationId == d.obligationId
    {
      var j :| 0 <= j < |requests| && requests[j].obligationId == d.obligationId;
      assert marked[j] in marked && marked[j].obligationId == d.obligationId;
    }
  }

  lemma MarkKeepsQueue(plan: Plan, calls: seq<Call>, c: Call, requests: seq<Request>, i: nat, marked: seq<Request>)
    requires Queue(plan, calls, requests) && Eligible(plan, c)
    requires i < |requests| && requests[i].obligationId == c.obligationId
    requires marked == if c.forceFresh then requests[i := requests[i].(allowEvidenceReuse := false)] else requests
    ensures Queue(plan, calls + [c], marked)
  {
    forall j | 0 <= j < |marked| ensures MadeBy(plan, calls + [c], marked[j]) {
      assert requests[j] in requests;
      if c.forceFresh && j == i { MadeByForced(plan, calls, c, requests[i]); }
      else { MadeByStays(plan, calls, c, requests[j]); }
    }
    SameIdsServe(plan, calls, c, requests, i, marked);
  }

  lemma PushKeepsQueue(plan: Plan, calls: seq<Call>, c: Call, requests: seq<Request>)
    requires Queue(plan, calls, requests) && Eligible(plan, c)
    requires forall i :: 0 <= i < |requests| ==> requests[i].obligationId != c.obligationId
    ensures Queue(plan, calls + [c], requests + [RequestOf(plan, c)])
  {
    PushedIsMade(plan, calls, c, requests);
    var pushed := requests + [RequestOf(plan, c)];
    forall q | q in pushed ensures MadeBy(plan, calls + [c], q) {
      if q in requests { MadeByStays(plan, calls, c, q); }
    }
    forall d | d in calls + [c] && Eligible(plan, d) ensures exists q :: q in pushed && q.obligationId == d.obligationId {
      if d in calls {
        var j :| 0 <= j < |requests| && requests[j].obligationId == d.obligationId;
        assert pushed[j] in pushed;
      } else {
        assert pushed[|requests|] in pushed;
      }
    }
  }

  // The closure: push a request, or mark the one that is already there.
  method AddRequest(plan: Plan, requests: seq<Request>, c: Call, ghost calls: seq<Call>)
    returns (result: Result<seq<Request>, PlanError>)
    requires Queue(plan, calls, requests) && InCallOrder(plan, calls, requests)
    ensures result.Err? <==> Unbound(plan, c)
    ensures result.Ok? ==> Queue(plan, calls + [c], result.value) && InCallOrder(plan, calls + [c], result.value)
  {
    var obligation := ById(plan.obligations, c.obligationId);
    if obligation.None? || !obligation.value.hard {
      SkipKeepsQueue(plan, calls, c, requests);
      OrderSurvives(plan, calls, c, requests, requests);
      return Ok(requests);
    }
    var command := plan.select(obligation.value, if c.automatic then None else c.hint.commandRef);
    if command.None? {
      if plan.candidateMutation { return Err(BoundProofUnavailable); }
      SkipKeepsQueue(plan, calls, c, requests);
      OrderSurvives(plan, calls, c, requests, requests);
      return Ok(requests);
    }
    if i :| 0 <= i < |requests| && requests[i].obligationId == c.obligationId {
      var marked := requests;
      if c.forceFresh { marked := requests[i := requests[i].(allowEvidenceReuse := false)]; }
      MarkKeepsQueue(plan, calls, c, requests, i, marked);
      OrderSurvives(plan, calls, c, requests, marked);
      return Ok(marked);
    }
    PushKeepsQueue(plan, calls, c, requests);
    ByIdHasId(plan.obligations, c.obligationId);
    PushedComesLast(plan, calls, c, requests, RequestOf(plan, c));
    result := Ok(requests + [RequestOf(plan, c)]);
  }

  predicate RankLe(left: Request, right: Request) {
    Rank(left.scope) <= Rank(right.scope)
  }

  ghost predicate AllBound(plan: Plan, calls: seq<Call>) {
    forall c :: c in calls ==> !Unbound(plan, c)
  }

  // The closure runs on each call in turn and stops at the first it cannot bind.
  method PushRequests(plan: Plan, calls: seq<Call>) returns (result: Result<seq<Request>, PlanError>)
    ensures result.Ok? <==> AllBound(plan, calls)
    ensures result.Ok? ==> Queue(plan, calls, result.value) && InCallOrder(plan, calls, result.value)
  {
    var requests: seq<Request> := [];
    ghost var done: seq<Call> := [];
    for n := 0 to |calls|
      invariant done == calls[..n]
      invariant Queue(plan, done, requests) && InCallOrder(plan, done, requests)
      invariant AllBound(plan, done)
    {
      var added := AddRequest(plan, requests, calls[n], done);
      if added.Err? {
        assert calls[n] in calls;
        return Err(BoundProofUnavailable);
      }
      requests, done := added.value, done + [calls[n]];
    }
    assert done == calls;
    result := Ok(requests);
  }

  // The planner: outstanding, newly covered and explicitly fresh obligations in
  // turn, then sorted. It fails exactly when a candidate's hard obligation has
  // no command; otherwise the queue holds one request for each obligation that
  // an eligible call names, focused before integration before goal, and within a
  // scope in the order of the calls.
  method ProofRequestsForReport(plan: Plan) returns (result: Result<seq<Request>, PlanError>)
    ensures result.Ok? <==> AllBound(plan, Calls(plan))
    ensures result.Ok? ==> Queue(plan, Calls(plan), result.value) && NarrowFirst(result.value)
    ensures result.Ok? ==> InCallOrderByScope(plan, Calls(plan), result.value)
  {
    result := PushRequests(plan, Calls(plan));
    if result.Ok? {
      SortKeepsCallOrder(plan, Calls(plan), result.value);
      SortSorts(result.value, RankLe);
      SortKeepsQueue(plan, Calls(plan), result.value);
      RankedIsNarrowFirst(Sort(result.value, RankLe));
      result := Ok(Sort(result.value, RankLe));
    }
  }

  lemma RankedIsNarrowFirst(requests: seq<Request>)
    requires Sorted(requests, RankLe)
    ensures NarrowFirst(requests)
  {
    forall i, j | 0 <= i < j < |requests| ensures NoWider(requests[i].scope, requests[j].scope) {
      RankIsNoWider(requests[i].scope, requests[j].scope);
    }
  }

  lemma SortKeepsCallOrder(plan: Plan, calls: seq<Call>, requests: seq<Request>)
    requires InCallOrder(plan, calls, requests)
    ensures InCallOrderByScope(plan, calls, Sort(requests, RankLe))
  {
    var sorted := Sort(requests, RankLe);
    forall i, j | 0 <= i < j < |sorted| && sorted[i].scope == sorted[j].scope
      ensures Called(plan, calls, sorted[i], sorted[j])
    {
      var k, l := SortKeepsOrder(requests, i, j, RankLe);
      assert Called(plan, calls, requests[k], requests[l]);
    }
  }

  lemma SortKeepsQueue(plan: Plan, calls: seq<Call>, requests: seq<Request>)
    requires Queue(plan, calls, requests)
    ensures Queue(plan, calls, Sort(requests, RankLe))
  {
    var sorted := Sort(requests, RankLe);
    SortSorts(requests, RankLe);
    forall i, j | 0 <= i < j < |sorted| ensures sorted[i].obligationId != sorted[j].obligationId {
      if sorted[i].obligationId == sorted[j].obligationId {
        SameIdSameRequest(plan, calls, requests, sorted[i], sorted[j]);
        TwoPlaces(sorted, i, j);
        OncePerRequest(requests, sorted[i]);
      }
    }
  }

  lemma SameIdSameRequest(plan: Plan, calls: seq<Call>, requests: seq<Request>, q: Request, q': Request)
    requires Queue(plan, calls, requests) && q in requests && q' in requests && q.obligationId == q'.obligationId
    ensures q == q'
  {
  }

  lemma {:induction false} OncePerRequest(requests: seq<Request>, q: Request)
    requires forall i, j :: 0 <= i < j < |requests| ==> requests[i].obligationId != requests[j].obligationId
    ensures multiset(requests)[q] <= 1
  {
    if requests != [] {
      var n := |requests| - 1;
      OncePerRequest(requests[..n], q);
      assert requests == requests[..n] + [requests[n]];
      assert requests[n] == q ==> q !in requests[..n];
    }
  }

  // ---- Which obligations are asked for, without the order of the calls ----

  // Of several hints for one obligation the last one counts.
  function LastHint(plan: Plan, id: Text, n: nat): Option<Hint>
    requires n <= |plan.hints|
  {
    if n == 0 then None
    else if HintObligationId(plan.hints[n - 1], plan.obligations) == id then Some(plan.hints[n - 1])
    else LastHint(plan, id, n - 1)
  }

  lemma {:induction false} RequestedIsLastHint(plan: Plan, id: Text, n: nat)
    requires n <= |plan.hints|
    ensures Get(Requested(plan, n), id) == LastHint(plan, id, n)
  {
    if n > 0 {
      RequestedIsLastHint(plan, id, n - 1);
      GetSet(Requested(plan, n - 1), HintObligationId(plan.hints[n - 1], plan.obligations), plan.hints[n - 1], id);
    }
  }

  ghost predicate NoRepeat(keys: seq<Text>) {
    forall i, j :: 0 <= i < j < |keys| ==> keys[i] != keys[j]
  }

  lemma OneKeyMore(keys: seq<Text>, key: Text)
    requires NoRepeat(keys) && key !in keys
    ensures NoRepeat(keys + [key])
  {
  }

  lemma {:induction false} RequestedKeysDiffer(plan: Plan, n: nat)
    requires n <= |plan.hints|
    ensures NoRepeat(Keys(Requested(plan, n)))
  {
    if n > 0 {
      RequestedKeysDiffer(plan, n - 1);
      var m, key := Requested(plan, n - 1), HintObligationId(plan.hints[n - 1], plan.obligations);
      SetKeys(m, key, plan.hints[n - 1]);
      if key !in Keys(m) { OneKeyMore(Keys(m), key); }
    }
  }

  lemma RequestedIsDistinct(plan: Plan, n: nat)
    requires n <= |plan.hints|
    ensures forall i, j :: 0 <= i < j < |Requested(plan, n)| ==> Requested(plan, n)[i].0 != Requested(plan, n)[j].0
  {
    RequestedKeysDiffer(plan, n);
    KeysAt(Requested(plan, n));
    var m := Requested(plan, n);
    forall i, j | 0 <= i < j < |m| ensures m[i].0 != m[j].0 {
      assert Keys(m)[i] != Keys(m)[j];
    }
  }

  ghost predicate Asked(plan: Plan, c: Call) {
    var last := LastHint(plan, c.obligationId, |plan.hints|);
    var outstanding := c.obligationId in Outstanding(plan);
    || (outstanding && !Premature(plan, c.obligationId) && !Unrelated(plan, c.obligationId, last.Some?)
        && c == Call(c.obligationId, if last.Some? then last.value else NO_HINT, false, last.None?))
    || (!outstanding && last.Some? && CoverageNeedsProof(plan, c.obligationId, last.value)
        && c == Call(c.obligationId, last.value, false, false))
    || (c.hint in plan.hints && c.hint.rerun && !Premature(plan, c.obligationId)
        && c == Call(HintObligationId(c.hint, plan.obligations), c.hint, true, false))
  }

  lemma CallsAreExactlyAsked(plan: Plan, c: Call)
    ensures c in Calls(plan) <==> Asked(plan, c)
  {
    var n := |plan.hints|;
    var requested := Requested(plan, n);
    RequestedIsLastHint(plan, c.obligationId, n);
    RequestedIsDistinct(plan, n);
    OutstandingMember(plan, requested, Outstanding(plan), c);
    CoverageMember(plan, Outstanding(plan), requested, c);
    FreshMember(plan, plan.hints, c);
    EntryOfKey(requested, c.obligationId);
  }

  lemma {:induction false} EntryOfKey(m: Entries<Text, Hint>, key: Text)
    requires forall i, j :: 0 <= i < j < |m| ==> m[i].0 != m[j].0
    ensures forall hint :: (key, hint) in m <==> Get(m, key) == Some(hint)
  {
    if m != [] {
      assert forall i :: 0 <= i < |m[1..]| ==> m[1..][i] == m[i + 1];
      EntryOfKey(m[1..], key);
      assert m == [m[0]] + m[1..];
    }
  }

  lemma {:induction false} OutstandingMember(plan: Plan, requested: Entries<Text, Hint>, ids: seq<Text>, c: Call)
    ensures c in OutstandingCalls(plan, requested, ids)
            <==> c.obligationId in ids
                 && (var hint := Get(requested, c.obligationId);
                     !Premature(plan, c.obligationId) && !Unrelated(plan, c.obligationId, hint.Some?)
                     && c == Call(c.obligationId, if hint.Some? then hint.value else NO_HINT, false, hint.None?))
  {
    if ids != [] {
      OutstandingMember(plan, requested, ids[..|ids| - 1], c);
      assert ids == ids[..|ids| - 1] + [ids[|ids| - 1]];
    }
  }

  lemma {:induction false} CoverageMember(plan: Plan, outstanding: seq<Text>, requested: Entries<Text, Hint>, c: Call)
    ensures c in CoverageCalls(plan, outstanding, requested)
            <==> (c.obligationId, c.hint) in requested && c.obligationId !in outstanding
                 && CoverageNeedsProof(plan, c.obligationId, c.hint) && !c.forceFresh && !c.automatic
  {
    if requested != [] {
      CoverageMember(plan, outstanding, requested[..|requested| - 1], c);
      var last := requested[|requested| - 1];
      assert requested == requested[..|requested| - 1] + [last] && last == (last.0, last.1);
    }
  }

  lemma {:induction false} FreshMember(plan: Plan, hints: seq<Hint>, c: Call)
    ensures c in FreshCalls(plan, hints)
            <==> c.hint in hints && c.hint.rerun && c.obligationId == HintObligationId(c.hint, plan.obligations)
                 && !Premature(plan, c.obligationId) && c.forceFresh && !c.automatic
  {
    if hints != [] {
      FreshMember(plan, hints[..|hints| - 1], c);
      assert hints == hints[..|hints| - 1] + [hints[|hints| - 1]];
    }
  }
}
