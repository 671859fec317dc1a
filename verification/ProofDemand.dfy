/** What a report's plan asks to be proved, said from its obligations, hints and steps alone. */
module ProofDemand {
  import opened Prelude
  import opened JsText
  import opened Sorting
  import opened OrderedMap
  import opened VerificationSettlement
  import opened ProofPlanner

  // ---- Obligations and hints ----

  ghost predicate Declared(plan: Plan, id: Text) {
    exists k :: 0 <= k < |plan.obligations| && plan.obligations[k].id == id
  }

  // Of several rows for one id the last one counts.
  ghost predicate Declares(plan: Plan, id: Text, o: Obligation) {
    exists k :: 0 <= k < |plan.obligations| && plan.obligations[k] == o && o.id == id
                && forall j :: k < j < |plan.obligations| ==> plan.obligations[j].id != id
  }

  // A hint without an obligation is about the default one, or else about the one named like its command.
  ghost predicate About(plan: Plan, hint: Hint, id: Text) {
    if |hint.obligationId| > 0 then id == hint.obligationId
    else if Declared(plan, DEFAULT) then id == DEFAULT
    else match hint.commandRef
      case Some(command) => id == command
      case None => |id| == 0
  }

  ghost predicate Mentioned(plan: Plan, id: Text) {
    exists k :: 0 <= k < |plan.hints| && About(plan, plan.hints[k], id)
  }

  // The last hint about an obligation counts.
  ghost predicate Hinted(plan: Plan, id: Text, hint: Hint) {
    exists k :: 0 <= k < |plan.hints| && plan.hints[k] == hint && About(plan, hint, id)
                && forall j :: k < j < |plan.hints| ==> !About(plan, plan.hints[j], id)
  }

  // ---- Grounds ----

  function ScopeOf(plan: Plan, id: Text): Scope {
    SettlementScope(ById(plan.obligations, id), plan.refLe)
  }

  ghost predicate OthersOpen(plan: Plan) {
    plan.step.Some?
    && exists k :: 0 <= k < |plan.planSteps| && plan.planSteps[k].stepId != plan.step.value.stepId && !plan.planSteps[k].settled
  }

  // An integration or goal proof waits while another step of the plan is open.
  ghost predicate TooEarly(plan: Plan, id: Text) {
    ScopeOf(plan, id) != Focused && OthersOpen(plan)
  }

  // A candidate's every obligation is open, an ordinary report's only those found unsatisfied.
  ghost predicate Open(plan: Plan, id: Text) {
    if plan.candidateMutation then Declared(plan, id) else id in plan.unsatisfied
  }

  // The step names the obligation, or one of its acceptance criteria.
  ghost predicate NamedByStep(plan: Plan, id: Text)
    requires plan.step.Some?
  {
    id in plan.step.value.obligationIds
    || exists k, a :: 0 <= k < |plan.obligations| && plan.obligations[k].id == id
                      && a in plan.obligations[k].acceptanceIds && a in plan.step.value.acceptanceIds
  }

  // At the last open step a revalidation takes up again what passed steps proved.
  ghost predicate NamedByPassedStep(plan: Plan, id: Text)
    requires plan.step.Some?
  {
    plan.revalidatePassed && !OthersOpen(plan)
    && exists k :: 0 <= k < |plan.planSteps| && plan.planSteps[k].stepId != plan.step.value.stepId
                   && plan.planSteps[k].passed && id in plan.planSteps[k].obligationIds
  }

  // Nobody has to ask for a wide proof, nor for a focused one that belongs to the work at hand.
  ghost predicate OwnWork(plan: Plan, id: Text) {
    ScopeOf(plan, id) != Focused || plan.step.None? || plan.step.value.synthetic
    || NamedByStep(plan, id) || NamedByPassedStep(plan, id)
  }

  // The hint claims an acceptance criterion nothing covers yet.
  ghost predicate ClaimsMore(plan: Plan, id: Text, hint: Hint) {
    match hint.acceptanceCoverage
    case None => false
    case Some(claimed) =>
      |claimed| > 0
      && exists o :: Declares(plan, id, o)
           && match plan.canonicalCoverage(o, claimed)
              case None => false
              case Some(canonical) => exists a :: a in canonical && a !in plan.acceptanceCovered
  }

  // The obligation is to be proved: by itself, by its last hint, or afresh by any hint that says so.
  ghost predicate Wanted(plan: Plan, id: Text, from: Option<Hint>, anew: bool) {
    match from
    case None => !anew && Open(plan, id) && !TooEarly(plan, id) && OwnWork(plan, id) && !Mentioned(plan, id)
    case Some(hint) =>
      if anew then hint in plan.hints && About(plan, hint, id) && hint.rerun && !TooEarly(plan, id)
      else Hinted(plan, id, hint) && (if Open(plan, id) then !TooEarly(plan, id) else ClaimsMore(plan, id, hint))
  }

  // The command the obligation is bound to, given what the hint prefers.
  function Preferred(from: Option<Hint>): Option<Text> {
    match from case None => None case Some(hint) => hint.commandRef
  }

  // ---- The planner's own terms mean this ----

  predicate LastAt(obligations: seq<Obligation>, id: Text, k: nat)
  {
    k < |obligations| && obligations[k].id == id && forall j :: k < j < |obligations| ==> obligations[j].id != id
  }

  lemma {:induction false} ByIdIsLast(obligations: seq<Obligation>, id: Text) returns (k: nat)
    requires ById(obligations, id).Some?
    ensures LastAt(obligations, id, k) && obligations[k] == ById(obligations, id).value
  {
    var n := |obligations| - 1;
    if obligations[n].id == id {
      k := n;
    } else {
      k := ByIdIsLast(obligations[..n], id);
      forall j | k < j <= n ensures obligations[j].id != id {
        if j < n { assert obligations[..n][j] == obligations[j]; }
      }
    }
  }

  lemma LastIsOne(obligations: seq<Obligation>, id: Text, k: nat, l: nat)
    requires LastAt(obligations, id, k) && LastAt(obligations, id, l)
    ensures k == l
  {
  }

  lemma ByIdIs(obligations: seq<Obligation>, id: Text, o: Obligation)
    ensures ById(obligations, id) == Some(o)
            <==> exists k :: 0 <= k < |obligations| && obligations[k] == o && o.id == id
                             && forall j :: k < j < |obligations| ==> obligations[j].id != id
  {
    ByIdIsDeclared(obligations, id);
    if ById(obligations, id).Some? {
      var k := ByIdIsLast(obligations, id);
      if l :| 0 <= l < |obligations| && obligations[l] == o && o.id == id
              && forall j :: l < j < |obligations| ==> obligations[j].id != id {
        LastIsOne(obligations, id, k, l);
      }
    }
  }

  lemma {:induction false} ByIdIsDeclared(obligations: seq<Obligation>, id: Text)
    ensures ById(obligations, id).Some? <==> exists k :: 0 <= k < |obligations| && obligations[k].id == id
  {
    if obligations != [] {
      var n := |obligations| - 1;
      ByIdIsDeclared(obligations[..n], id);
      if k :| 0 <= k < n && obligations[k].id == id { assert obligations[..n][k].id == id; }
      if k :| 0 <= k < n && obligations[..n][k].id == id { assert obligations[k].id == id; }
    }
  }

  lemma DeclaresIff(plan: Plan, id: Text, o: Obligation)
    ensures ById(plan.obligations, id) == Some(o) <==> Declares(plan, id, o)
  {
    ByIdIs(plan.obligations, id, o);
  }

  lemma AboutIff(plan: Plan, hint: Hint, id: Text)
    ensures HintObligationId(hint, plan.obligations) == id <==> About(plan, hint, id)
  {
    ByIdIsDeclared(plan.obligations, DEFAULT);
  }

  lemma {:induction false} LastHintIs(plan: Plan, id: Text, n: nat)
    requires n <= |plan.hints|
    ensures (match LastHint(plan, id, n)
             case Some(hint) => exists k :: 0 <= k < n && plan.hints[k] == hint && About(plan, hint, id)
                                            && forall j :: k < j < n ==> !About(plan, plan.hints[j], id)
             case None => forall k :: 0 <= k < n ==> !About(plan, plan.hints[k], id))
  {
    if n > 0 {
      AboutIff(plan, plan.hints[n - 1], id);
      LastHintIs(plan, id, n - 1);
    }
  }

  lemma HintedIff(plan: Plan, id: Text, hint: Hint)
    ensures LastHint(plan, id, |plan.hints|) == Some(hint) <==> Hinted(plan, id, hint)
    ensures LastHint(plan, id, |plan.hints|).None? <==> !Mentioned(plan, id)
  {
    LastHintIs(plan, id, |plan.hints|);
  }

  lemma PrematureIff(plan: Plan, id: Text)
    ensures Premature(plan, id) <==> TooEarly(plan, id)
    ensures plan.step.Some? ==> (FinalWorkUnit(plan) <==> !OthersOpen(plan))
  {
    if plan.step.Some? && !FinalWorkUnit(plan) {
      var s :| s in plan.planSteps && s.stepId != plan.step.value.stepId && !s.settled;
      var k :| 0 <= k < |plan.planSteps| && plan.planSteps[k] == s;
    }
  }

  lemma UnrelatedIff(plan: Plan, id: Text, hinted: bool)
    ensures Unrelated(plan, id, hinted) <==> !hinted && !OwnWork(plan, id)
  {
    PrematureIff(plan, id);
    if plan.step.Some? {
      NamedIff(plan, id);
      PassedIff(plan, id);
    }
  }

  lemma NamedIff(plan: Plan, id: Text)
    requires plan.step.Some?
    ensures OfStep(plan, id) <==> NamedByStep(plan, id)
  {
    if o, a :| o in plan.obligations && o.id == id && a in o.acceptanceIds && a in plan.step.value.acceptanceIds {
      var k :| 0 <= k < |plan.obligations| && plan.obligations[k] == o;
      assert a in plan.obligations[k].acceptanceIds;
    }
  }

  lemma PassedIff(plan: Plan, id: Text)
    requires plan.step.Some?
    ensures OfPassedStep(plan, id) <==> NamedByPassedStep(plan, id)
  {
    PrematureIff(plan, id);
    if s :| s in plan.planSteps && s.stepId != plan.step.value.stepId && s.passed && id in s.obligationIds {
      var k :| 0 <= k < |plan.planSteps| && plan.planSteps[k] == s;
    }
  }

  lemma OpenIff(plan: Plan, id: Text)
    ensures id in Outstanding(plan) <==> Open(plan, id)
  {
    var ids := seq(|plan.obligations|, i requires 0 <= i < |plan.obligations| => plan.obligations[i].id);
    DedupeKeepsOneOfEach(if plan.candidateMutation then ids else plan.unsatisfied);
    if k :| 0 <= k < |plan.obligations| && plan.obligations[k].id == id { assert ids[k] == id; }
  }

  lemma ClaimsIff(plan: Plan, id: Text, hint: Hint)
    ensures CoverageNeedsProof(plan, id, hint) <==> ClaimsMore(plan, id, hint)
  {
    if ById(plan.obligations, id).Some? { DeclaresIff(plan, id, ById(plan.obligations, id).value); }
    forall o ensures Declares(plan, id, o) <==> ById(plan.obligations, id) == Some(o) { DeclaresIff(plan, id, o); }
  }

  // A call asks on behalf of no hint, or of its own.
  function By(c: Call): Option<Hint> {
    if c.automatic then None else Some(c.hint)
  }

  lemma AskedIsWanted(plan: Plan, c: Call)
    requires Asked(plan, c)
    ensures Wanted(plan, c.obligationId, By(c), c.forceFresh) && (c.automatic ==> c.hint == NO_HINT)
  {
    TermsMean(plan, c.obligationId, c.hint);
  }

  lemma WantedIsAsked(plan: Plan, id: Text, from: Option<Hint>, anew: bool) returns (c: Call)
    requires Wanted(plan, id, from, anew)
    ensures Asked(plan, c) && c.obligationId == id && By(c) == from && c.forceFresh == anew
  {
    var hint := if from.Some? then from.value else NO_HINT;
    TermsMean(plan, id, hint);
    c := Call(id, hint, anew, from.None?);
  }

  lemma TermsMean(plan: Plan, id: Text, hint: Hint)
    ensures id in Outstanding(plan) <==> Open(plan, id)
    ensures Premature(plan, id) <==> TooEarly(plan, id)
    ensures Unrelated(plan, id, false) <==> !OwnWork(plan, id)
    ensures !Unrelated(plan, id, true)
    ensures LastHint(plan, id, |plan.hints|) == Some(hint) <==> Hinted(plan, id, hint)
    ensures LastHint(plan, id, |plan.hints|).None? <==> !Mentioned(plan, id)
    ensures CoverageNeedsProof(plan, id, hint) <==> ClaimsMore(plan, id, hint)
    ensures HintObligationId(hint, plan.obligations) == id <==> About(plan, hint, id)
  {
    OpenIff(plan, id);
    PrematureIff(plan, id);
    UnrelatedIff(plan, id, false);
    UnrelatedIff(plan, id, true);
    HintedIff(plan, id, hint);
    ClaimsIff(plan, id, hint);
    AboutIff(plan, hint, id);
  }

  // ---- Due obligations ----

  // A hard obligation that is wanted, with a command it is bound to.
  ghost predicate DueBy(plan: Plan, id: Text, from: Option<Hint>, anew: bool) {
    Wanted(plan, id, from, anew)
    && exists o :: Declares(plan, id, o) && o.hard && plan.select(o, Preferred(from)).Some?
  }

  ghost predicate Due(plan: Plan, id: Text) {
    exists from: Option<Hint>, anew: bool :: DueBy(plan, id, from, anew)
  }

  // A candidate's hard obligation is wanted and bound to no command.
  ghost predicate Unprovable(plan: Plan) {
    plan.candidateMutation
    && exists id: Text, from: Option<Hint>, anew: bool :: Wanted(plan, id, from, anew) && UnboundFor(plan, id, from)
  }

  ghost predicate UnboundFor(plan: Plan, id: Text, from: Option<Hint>) {
    exists o :: Declares(plan, id, o) && o.hard && plan.select(o, Preferred(from)).None?
  }

  lemma EligibleIff(plan: Plan, c: Call)
    ensures Eligible(plan, c) <==> exists o :: Declares(plan, c.obligationId, o) && o.hard && plan.select(o, Preferred(By(c))).Some?
    ensures Unbound(plan, c) <==> plan.candidateMutation && UnboundFor(plan, c.obligationId, By(c))
  {
    forall o ensures ById(plan.obligations, c.obligationId) == Some(o) <==> Declares(plan, c.obligationId, o) {
      DeclaresIff(plan, c.obligationId, o);
    }
  }

  // The calls of the planner ask for exactly what is due.
  lemma DueIff(plan: Plan, id: Text)
    ensures Due(plan, id) <==> exists c :: c in Calls(plan) && c.obligationId == id && Eligible(plan, c)
  {
    if from, anew :| DueBy(plan, id, from, anew) {
      var c := WantedIsAsked(plan, id, from, anew);
      CallsAreExactlyAsked(plan, c);
      EligibleIff(plan, c);
    }
    if c :| c in Calls(plan) && c.obligationId == id && Eligible(plan, c) {
      CallsAreExactlyAsked(plan, c);
      AskedIsWanted(plan, c);
      EligibleIff(plan, c);
      assert DueBy(plan, id, By(c), c.forceFresh);
    }
  }

  lemma UnprovableIff(plan: Plan)
    ensures AllBound(plan, Calls(plan)) <==> !Unprovable(plan)
  {
    if Unprovable(plan) {
      var id: Text, from: Option<Hint>, anew: bool :| Wanted(plan, id, from, anew) && UnboundFor(plan, id, from);
      var c := WantedIsAsked(plan, id, from, anew);
      CallsAreExactlyAsked(plan, c);
      EligibleIff(plan, c);
    }
    if !AllBound(plan, Calls(plan)) {
      var c :| c in Calls(plan) && Unbound(plan, c);
      CallsAreExactlyAsked(plan, c);
      AskedIsWanted(plan, c);
      EligibleIff(plan, c);
    }
  }

  // ---- What is queued for a due obligation ----

  // A positive timeout of the hint, else of the obligation.
  predicate TimeoutFits(hinted: Option<nat>, declared: Option<nat>, ms: Option<nat>) {
    match (hinted, declared)
    case (Some(h), _) => if h > 0 then ms == Some(h) else ms == (if declared == Some(0) then None else declared)
    case (None, Some(d)) => if d > 0 then ms == Some(d) else ms == None
    case (None, None) => ms == None
  }

  // What the request claims to cover.
  function Claimed(o: Obligation, from: Option<Hint>): seq<Text> {
    match from
    case None => o.acceptanceIds
    case Some(hint) => match hint.acceptanceCoverage case Some(claimed) => claimed case None => []
  }

  // The request carries what its hint says, and without one what the obligation says.
  predicate Carries(o: Obligation, from: Option<Hint>, q: Request) {
    q.acceptanceCoverage == Claimed(o, from)
    && match from
    case None => TimeoutFits(None, o.timeoutMs, q.timeoutMs) && q.networkPolicy == INHERITED && !q.flakyRerun
    case Some(hint) =>
      TimeoutFits(hint.timeoutMs, o.timeoutMs, q.timeoutMs) && q.flakyRerun == hint.flakyRerun
      && (match hint.networkPolicy case Some(policy) => q.networkPolicy == policy case None => q.networkPolicy == INHERITED)
  }

  ghost predicate QueuedFor(plan: Plan, q: Request, o: Obligation, from: Option<Hint>, anew: bool) {
    && Wanted(plan, q.obligationId, from, anew) && Declares(plan, q.obligationId, o) && o.hard
    && plan.select(o, Preferred(from)) == Some(q.commandRef)
    && q.scope == SettlementScope(Some(o), plan.refLe) && Carries(o, from, q)
  }

  // Evidence is reused but for a flaky rerun and where a due hint asks for a fresh proof.
  ghost predicate ReuseForbidden(plan: Plan, id: Text) {
    exists from: Option<Hint> :: DueBy(plan, id, from, true)
  }

  lemma ForcedIff(plan: Plan, id: Text)
    ensures Forced(plan, Calls(plan), id) <==> ReuseForbidden(plan, id)
  {
    if Forced(plan, Calls(plan), id) {
      var c :| c in Calls(plan) && Eligible(plan, c) && c.obligationId == id && c.forceFresh;
      CallsAreExactlyAsked(plan, c);
      AskedIsWanted(plan, c);
      EligibleIff(plan, c);
      assert DueBy(plan, id, By(c), true);
    }
    if from: Option<Hint> :| DueBy(plan, id, from, true) {
      var c := WantedIsAsked(plan, id, from, true);
      CallsAreExactlyAsked(plan, c);
      EligibleIff(plan, c);
    }
  }

  lemma RequestCarries(plan: Plan, c: Call)
    requires Eligible(plan, c) && (c.automatic ==> c.hint == NO_HINT)
    ensures (var o := ById(plan.obligations, c.obligationId).value;
             Carries(o, By(c), RequestOf(plan, c)) && RequestOf(plan, c).obligationId == o.id)
  {
  }

  // ---- Of several grounds the first decides what is queued ----

  ghost predicate FirstAnew(plan: Plan, id: Text, hint: Hint) {
    exists k :: 0 <= k < |plan.hints| && plan.hints[k] == hint
                && forall j :: 0 <= j < k ==> !DueBy(plan, id, Some(plan.hints[j]), true)
  }

  // A standing ground comes before a fresh proof, and of fresh proofs the first hint's.
  ghost predicate Leads(plan: Plan, id: Text, from: Option<Hint>, anew: bool) {
    anew ==> from.Some? && (forall other: Option<Hint> :: !DueBy(plan, id, other, false)) && FirstAnew(plan, id, from.value)
  }

  predicate AsksAnew(plan: Plan, hint: Hint, id: Text) {
    hint.rerun && HintObligationId(hint, plan.obligations) == id && !Premature(plan, id)
    && Eligible(plan, Call(id, hint, true, false))
  }

  lemma {:induction false} FirstFreshHint(plan: Plan, hints: seq<Hint>, id: Text, m: nat) returns (k: nat)
    requires m < |FreshCalls(plan, hints)| && FreshCalls(plan, hints)[m].obligationId == id
    requires forall l :: 0 <= l < m && FreshCalls(plan, hints)[l].obligationId == id ==> !Eligible(plan, FreshCalls(plan, hints)[l])
    ensures k < |hints| && hints[k] == FreshCalls(plan, hints)[m].hint
    ensures forall j :: 0 <= j < k ==> !AsksAnew(plan, hints[j], id)
  {
    var n := |hints| - 1;
    var init := hints[..n];
    var before := FreshCalls(plan, init);
    assert forall l :: 0 <= l < |before| ==> FreshCalls(plan, hints)[l] == before[l];
    if m < |before| {
      k := FirstFreshHint(plan, init, id, m);
      assert forall j :: 0 <= j < k ==> hints[j] == init[j];
    } else {
      k := n;
      forall j | 0 <= j < n ensures !AsksAnew(plan, hints[j], id) {
        var c := Call(id, hints[j], true, false);
        assert init[j] in init;
        FreshMember(plan, init, c);
        if c in before { var l :| 0 <= l < |before| && before[l] == c; }
      }
    }
  }

  lemma DueAnewAsks(plan: Plan, id: Text, hint: Hint)
    requires DueBy(plan, id, Some(hint), true)
    ensures AsksAnew(plan, hint, id)
  {
    TermsMean(plan, id, hint);
    EligibleIff(plan, Call(id, hint, true, false));
  }

  // Fresh calls stand last.
  lemma FreshStandLast(plan: Plan, k: nat) returns (first: nat)
    requires k < |Calls(plan)|
    ensures first <= |Calls(plan)| && Calls(plan)[first..] == FreshCalls(plan, plan.hints)
    ensures Calls(plan)[k].forceFresh <==> first <= k
  {
    var requested := Requested(plan, |plan.hints|);
    var standing := OutstandingCalls(plan, requested, Outstanding(plan)) + CoverageCalls(plan, Outstanding(plan), requested);
    first := |standing|;
    var c := Calls(plan)[k];
    if k < first { assert c == standing[k] && c in standing; } else { assert c == FreshCalls(plan, plan.hints)[k - first]; }
    OutstandingMember(plan, requested, Outstanding(plan), c);
    CoverageMember(plan, Outstanding(plan), requested, c);
    FreshMember(plan, plan.hints, c);
  }

  lemma FreshCallIsFirst(plan: Plan, id: Text, k: nat)
    requires FirstCall(plan, Calls(plan), id, k) && Calls(plan)[k].forceFresh
    ensures FirstAnew(plan, id, Calls(plan)[k].hint)
  {
    var calls := Calls(plan);
    var first := FreshStandLast(plan, k);
    var last := FreshCalls(plan, plan.hints);
    assert forall l :: 0 <= l <= k - first ==> last[l] == calls[first..][l] == calls[first + l];
    var j := FirstFreshHint(plan, plan.hints, id, k - first);
    forall i | 0 <= i < j ensures !DueBy(plan, id, Some(plan.hints[i]), true) {
      if DueBy(plan, id, Some(plan.hints[i]), true) { DueAnewAsks(plan, id, plan.hints[i]); }
    }
  }

  lemma FirstCallLeads(plan: Plan, id: Text, k: nat)
    requires FirstCall(plan, Calls(plan), id, k)
    ensures Leads(plan, id, By(Calls(plan)[k]), Calls(plan)[k].forceFresh)
  {
    var c := Calls(plan)[k];
    CallsAreExactlyAsked(plan, c);
    AskedIsWanted(plan, c);
    if c.forceFresh {
      FreshCallIsFirst(plan, id, k);
      forall other: Option<Hint> ensures !DueBy(plan, id, other, false) {
        if DueBy(plan, id, other, false) { StandingComesFirst(plan, id, other, k); }
      }
    }
  }

  lemma StandingComesFirst(plan: Plan, id: Text, other: Option<Hint>, k: nat)
    requires DueBy(plan, id, other, false) && k < |Calls(plan)| && Calls(plan)[k].forceFresh
    ensures exists i :: 0 <= i < k && Calls(plan)[i].obligationId == id && Eligible(plan, Calls(plan)[i])
  {
    var d := WantedIsAsked(plan, id, other, false);
    CallsAreExactlyAsked(plan, d);
    EligibleIff(plan, d);
    var i :| 0 <= i < |Calls(plan)| && Calls(plan)[i] == d;
    var first := FreshStandLast(plan, i);
    var first' := FreshStandLast(plan, k);
  }

  lemma HintedOnce(plan: Plan, id: Text, hint: Hint, other: Hint)
    requires Hinted(plan, id, hint) && Hinted(plan, id, other)
    ensures hint == other
  {
  }

  lemma FirstAnewOnce(plan: Plan, id: Text, hint: Hint, other: Hint)
    requires DueBy(plan, id, Some(hint), true) && FirstAnew(plan, id, hint)
    requires DueBy(plan, id, Some(other), true) && FirstAnew(plan, id, other)
    ensures hint == other
  {
    var k :| 0 <= k < |plan.hints| && plan.hints[k] == hint && forall j :: 0 <= j < k ==> !DueBy(plan, id, Some(plan.hints[j]), true);
    var l :| 0 <= l < |plan.hints| && plan.hints[l] == other && forall j :: 0 <= j < l ==> !DueBy(plan, id, Some(plan.hints[j]), true);
  }

  // Only one ground leads.
  lemma LeadsOnce(plan: Plan, id: Text, from: Option<Hint>, anew: bool, other: Option<Hint>, anew': bool)
    requires DueBy(plan, id, from, anew) && Leads(plan, id, from, anew)
    requires DueBy(plan, id, other, anew') && Leads(plan, id, other, anew')
    ensures from == other && anew == anew'
  {
    if anew && anew' {
      FirstAnewOnce(plan, id, from.value, other.value);
    } else if !anew && !anew' && from.Some? && other.Some? {
      HintedOnce(plan, id, from.value, other.value);
    }
  }

  // ---- The order of the calls ----

  lemma {:induction false} OutstandingInOrder(plan: Plan, requested: Entries<Text, Hint>, ids: seq<Text>, i: nat, j: nat)
    returns (a: nat, b: nat)
    requires i < j < |OutstandingCalls(plan, requested, ids)|
    ensures (var calls := OutstandingCalls(plan, requested, ids);
             a < b < |ids| && ids[a] == calls[i].obligationId && ids[b] == calls[j].obligationId)
  {
    var n := |ids| - 1;
    var before := OutstandingCalls(plan, requested, ids[..n]);
    if j < |before| {
      a, b := OutstandingInOrder(plan, requested, ids[..n], i, j);
    } else {
      b := n;
      OutstandingMember(plan, requested, ids[..n], before[i]);
      a :| 0 <= a < n && ids[..n][a] == before[i].obligationId;
    }
  }

  lemma {:induction false} FreshInOrder(plan: Plan, hints: seq<Hint>, i: nat, j: nat) returns (a: nat, b: nat)
    requires i < j < |FreshCalls(plan, hints)|
    ensures a < b < |hints| && hints[a] == FreshCalls(plan, hints)[i].hint && hints[b] == FreshCalls(plan, hints)[j].hint
  {
    var n := |hints| - 1;
    var before := FreshCalls(plan, hints[..n]);
    if j < |before| {
      a, b := FreshInOrder(plan, hints[..n], i, j);
    } else {
      b := n;
      FreshMember(plan, hints[..n], before[i]);
      a :| 0 <= a < n && hints[..n][a] == before[i].hint;
    }
  }

  // Open obligations in their order, then newly claimed ones, then fresh proofs in the order of the hints.
  lemma CallsInOrder(plan: Plan, i: nat, j: nat)
    requires i < j < |Calls(plan)|
    ensures (var left, right := Calls(plan)[i], Calls(plan)[j];
             && (left.forceFresh ==>
                   right.forceFresh
                   && exists a, b :: 0 <= a < b < |plan.hints| && plan.hints[a] == left.hint && plan.hints[b] == right.hint)
             && (!right.forceFresh && Open(plan, right.obligationId) ==>
                   exists a, b :: 0 <= a < b < |Outstanding(plan)|
                                  && Outstanding(plan)[a] == left.obligationId && Outstanding(plan)[b] == right.obligationId))
  {
    var requested := Requested(plan, |plan.hints|);
    var outstanding := OutstandingCalls(plan, requested, Outstanding(plan));
    var coverage := CoverageCalls(plan, Outstanding(plan), requested);
    var first := FreshStandLast(plan, i);
    var first' := FreshStandLast(plan, j);
    var left, right := Calls(plan)[i], Calls(plan)[j];
    if left.forceFresh {
      var last := FreshCalls(plan, plan.hints);
      assert first == first' && last[i - first] == Calls(plan)[first..][i - first] && last[j - first] == Calls(plan)[first..][j - first];
      var a, b := FreshInOrder(plan, plan.hints, i - first, j - first);
    }
    if !right.forceFresh && Open(plan, right.obligationId) {
      OpenIff(plan, right.obligationId);
      if j >= |outstanding| {
        assert right == coverage[j - |outstanding|];
        CoverageMember(plan, Outstanding(plan), requested, right);
      }
      var a, b := OutstandingInOrder(plan, requested, Outstanding(plan), i, j);
    }
  }

  // Whatever is queued is a hard obligation that is wanted, bound to the command selected for it, at its
  // own settlement scope, and carries what the first ground asked for.
  lemma QueueIsSound(plan: Plan, requests: seq<Request>, q: Request)
    requires Queue(plan, Calls(plan), requests) && q in requests
    ensures exists o: Obligation, from: Option<Hint>, anew: bool ::
              QueuedFor(plan, q, o, from, anew) && Leads(plan, q.obligationId, from, anew)
    ensures q.allowEvidenceReuse <==> !q.flakyRerun && !ReuseForbidden(plan, q.obligationId)
  {
    var calls := Calls(plan);
    var k :| 0 <= k < |calls| && MadeAt(plan, calls, q, k);
    var c := calls[k];
    CallsAreExactlyAsked(plan, c);
    AskedIsWanted(plan, c);
    RequestCarries(plan, c);
    ForcedIff(plan, q.obligationId);
    var o := ById(plan.obligations, q.obligationId).value;
    DeclaresIff(plan, q.obligationId, o);
    FirstCallLeads(plan, q.obligationId, k);
    assert QueuedFor(plan, q, o, By(c), c.forceFresh);
  }
}
