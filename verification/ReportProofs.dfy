/** One report's proofs, from its plan to what is executed. */
module ReportProofs {
  import opened Prelude
  import opened JsText
  import opened Sorting
  import opened VerificationSettlement
  import opened ProofPlanner
  import opened ProofDemand
  import opened ProofQueue

  datatype Outcome =
    | PlanFailed(error: PlanError)
    | CoverageRejected
    | Proved(world: World)

  // ---- From requests to jobs ----

  // A judgment on a hard obligation is refused and keeps its obligation out of the queue.
  function Kept(requests: seq<Request>, refused: seq<Text>): seq<Request> {
    if requests == [] then []
    else
      var last := requests[|requests| - 1];
      Kept(requests[..|requests| - 1], refused) + (if last.obligationId in refused then [] else [last])
  }

  function Seeded(plan: Plan, refused: seq<Text>): seq<Failure> {
    seq(|refused|, i requires 0 <= i < |refused| =>
          Failure(refused[i], SettlementScope(ById(plan.obligations, refused[i]), plan.refLe)))
  }

  // The coverage the request claims can be brought to its canonical form.
  predicate Covered(plan: Plan, q: Request) {
    var o := ById(plan.obligations, q.obligationId);
    o.Some? && plan.canonicalCoverage(o.value, q.acceptanceCoverage).Some?
  }

  function JobOf(plan: Plan, q: Request): Job
    requires Covered(plan, q)
  {
    var o := ById(plan.obligations, q.obligationId).value;
    Job(q.(acceptanceCoverage := plan.canonicalCoverage(o, q.acceptanceCoverage).value), AuthoritativeScope(o, plan.refLe))
  }

  // The jobs stand for the requests, in their order.
  ghost predicate JobsOf(plan: Plan, requests: seq<Request>, jobs: seq<Job>) {
    |jobs| == |requests|
    && forall i :: 0 <= i < |requests| ==> Covered(plan, requests[i]) && jobs[i] == JobOf(plan, requests[i])
  }

  lemma {:induction false} KeptMember(requests: seq<Request>, refused: seq<Text>, q: Request)
    ensures q in Kept(requests, refused) <==> q in requests && q.obligationId !in refused
  {
    if requests != [] {
      var init := requests[..|requests| - 1];
      KeptMember(init, refused, q);
      assert requests == init + [requests[|requests| - 1]];
    }
  }

  // Filtering keeps narrow scopes first and the queue free of repetition.
  ghost predicate OrderedOnce(requests: seq<Request>) {
    forall i, j :: 0 <= i < j < |requests| ==>
      NoWider(requests[i].scope, requests[j].scope) && requests[i].obligationId != requests[j].obligationId
  }

  lemma {:induction false} KeptIsOrderedOnce(requests: seq<Request>, refused: seq<Text>)
    requires OrderedOnce(requests)
    ensures OrderedOnce(Kept(requests, refused))
  {
    if requests != [] {
      var n := |requests| - 1;
      var init, kept := requests[..n], Kept(requests[..n], refused);
      KeptIsOrderedOnce(init, refused);
      forall k | 0 <= k < |kept|
        ensures NoWider(kept[k].scope, requests[n].scope) && kept[k].obligationId != requests[n].obligationId
      {
        KeptMember(init, refused, kept[k]);
        var m :| 0 <= m < n && init[m] == kept[k];
        assert requests[m] == kept[k];
      }
    }
  }

  // ---- What a report executes ----

  // No failure of the report, refused judgments included, is of a narrower scope than the obligation.
  predicate Reached(plan: Plan, failures: seq<Failure>, id: Text) {
    forall f :: f in failures ==>
      match f.scope
      case Focused => ScopeOf(plan, id) == Focused
      case Integration => ScopeOf(plan, id) != Goal
      case Goal => true
  }

  ghost predicate ExecutedSince(start: World, done: World, id: Text) {
    exists k :: |start.executed| <= k < |done.executed| && done.executed[k].obligationId == id
  }

  // Exactly the obligations that are due, not refused and not behind a failure are
  // executed, each once, focused before integration before goal.
  ghost predicate ExecutesExactly(plan: Plan, refused: seq<Text>, start: World, done: World) {
    && |start.executed| <= |done.executed| && done.executed[..|start.executed|] == start.executed
    && (forall id :: ExecutedSince(start, done, id) <==> Due(plan, id) && id !in refused && Reached(plan, done.failures, id))
    && (forall i, j :: |start.executed| <= i < j < |done.executed| ==>
          var left, right := done.executed[i].obligationId, done.executed[j].obligationId;
          left != right && NoWider(ScopeOf(plan, left), ScopeOf(plan, right)))
  }

  lemma QueuedIsDue(plan: Plan, requests: seq<Request>, q: Request)
    requires Queue(plan, Calls(plan), requests) && q in requests
    ensures Due(plan, q.obligationId) && q.scope == ScopeOf(plan, q.obligationId)
  {
    var calls := Calls(plan);
    var k :| 0 <= k < |calls| && MadeAt(plan, calls, q, k);
    DueIff(plan, q.obligationId);
    ByIdHasId(plan.obligations, q.obligationId);
  }

  lemma DueIsQueued(plan: Plan, requests: seq<Request>, id: Text) returns (q: Request)
    requires Queue(plan, Calls(plan), requests) && Due(plan, id)
    ensures q in requests && q.obligationId == id
  {
    DueIff(plan, id);
    var c: Call :| c in Calls(plan) && c.obligationId == id && Eligible(plan, c);
    q :| q in requests && q.obligationId == id;
  }

  lemma JobsAreOrdered(plan: Plan, requests: seq<Request>, jobs: seq<Job>)
    requires OrderedOnce(requests) && JobsOf(plan, requests, jobs)
    ensures NarrowFirstJobs(jobs)
  {
  }

  // The prefix of the requests that is executed is the one no failure cuts off.
  ghost predicate Runs(plan: Plan, kept: seq<Request>, start: World, done: World) {
    && |start.executed| <= |done.executed| <= |start.executed| + |kept|
    && done.executed[..|start.executed|] == start.executed
    && (forall k :: 0 <= k < |kept| ==>
          (k < |done.executed| - |start.executed| <==> Reached(plan, done.failures, kept[k].obligationId)))
    && (forall k :: 0 <= k < |done.executed| - |start.executed| ==>
          done.executed[|start.executed| + k].obligationId == kept[k].obligationId)
  }

  ghost predicate AtOwnScope(plan: Plan, kept: seq<Request>) {
    forall k :: 0 <= k < |kept| ==> kept[k].scope == ScopeOf(plan, kept[k].obligationId)
  }

  lemma GateIsReached(plan: Plan, kept: seq<Request>, jobs: seq<Job>, start: World, done: World)
    requires AtOwnScope(plan, kept) && JobsOf(plan, kept, jobs) && GateIsExact(jobs, 0, start, done)
    ensures Runs(plan, kept, start, done)
  {
    forall k | 0 <= k < |kept| ensures !Behind(done.failures, jobs[k].request.scope) <==> Reached(plan, done.failures, kept[k].obligationId) {
      assert jobs[k] == JobOf(plan, kept[k]);
    }
  }

  lemma KeptAtOwnScope(plan: Plan, planned: seq<Request>, refused: seq<Text>)
    requires Queue(plan, Calls(plan), planned)
    ensures AtOwnScope(plan, Kept(planned, refused))
  {
    var kept := Kept(planned, refused);
    forall k | 0 <= k < |kept| ensures kept[k].scope == ScopeOf(plan, kept[k].obligationId) {
      KeptMember(planned, refused, kept[k]);
      QueuedIsDue(plan, planned, kept[k]);
    }
  }

  lemma DueIsExecuted(plan: Plan, planned: seq<Request>, refused: seq<Text>, start: World, done: World, id: Text)
    requires Queue(plan, Calls(plan), planned) && Runs(plan, Kept(planned, refused), start, done)
    requires Due(plan, id) && id !in refused && Reached(plan, done.failures, id)
    ensures ExecutedSince(start, done, id)
  {
    var kept := Kept(planned, refused);
    var q := DueIsQueued(plan, planned, id);
    KeptMember(planned, refused, q);
    var k :| 0 <= k < |kept| && kept[k] == q;
    assert done.executed[|start.executed| + k].obligationId == id;
  }

  lemma ExecutedIsDue(plan: Plan, planned: seq<Request>, refused: seq<Text>, start: World, done: World, id: Text)
    requires Queue(plan, Calls(plan), planned) && Runs(plan, Kept(planned, refused), start, done)
    requires ExecutedSince(start, done, id)
    ensures Due(plan, id) && id !in refused && Reached(plan, done.failures, id)
  {
    var kept, n := Kept(planned, refused), |start.executed|;
    var k :| n <= k < |done.executed| && done.executed[k].obligationId == id;
    assert done.executed[n + (k - n)].obligationId == kept[k - n].obligationId;
    KeptMember(planned, refused, kept[k - n]);
    QueuedIsDue(plan, planned, kept[k - n]);
  }

  // The gate over the jobs, read as a statement about the report's obligations.
  lemma GateReadsAsReport(plan: Plan, planned: seq<Request>, refused: seq<Text>, jobs: seq<Job>, start: World, done: World)
    requires Queue(plan, Calls(plan), planned) && OrderedOnce(planned) && JobsOf(plan, Kept(planned, refused), jobs)
    requires GateIsExact(jobs, 0, start, done)
    ensures ExecutesExactly(plan, refused, start, done)
  {
    KeptAtOwnScope(plan, planned, refused);
    GateIsReached(plan, Kept(planned, refused), jobs, start, done);
    forall id | Due(plan, id) && id !in refused && Reached(plan, done.failures, id) ensures ExecutedSince(start, done, id) {
      DueIsExecuted(plan, planned, refused, start, done, id);
    }
    forall id | ExecutedSince(start, done, id) ensures Due(plan, id) && id !in refused && Reached(plan, done.failures, id) {
      ExecutedIsDue(plan, planned, refused, start, done, id);
    }
    KeptIsOrderedOnce(planned, refused);
    ExecutedInOrder(plan, Kept(planned, refused), start, done);
  }

  lemma ExecutedInOrder(plan: Plan, kept: seq<Request>, start: World, done: World)
    requires OrderedOnce(kept) && AtOwnScope(plan, kept) && Runs(plan, kept, start, done)
    ensures forall i, j :: |start.executed| <= i < j < |done.executed| ==>
              var left, right := done.executed[i].obligationId, done.executed[j].obligationId;
              left != right && NoWider(ScopeOf(plan, left), ScopeOf(plan, right))
  {
    var n := |start.executed|;
    forall i, j | n <= i < j < |done.executed|
      ensures done.executed[i].obligationId != done.executed[j].obligationId
      ensures NoWider(ScopeOf(plan, done.executed[i].obligationId), ScopeOf(plan, done.executed[j].obligationId))
    {
      assert done.executed[n + (i - n)].obligationId == kept[i - n].obligationId;
      assert done.executed[n + (j - n)].obligationId == kept[j - n].obligationId;
    }
  }

  lemma PlannedIsOrderedOnce(plan: Plan, planned: seq<Request>)
    requires Queue(plan, Calls(plan), planned) && NarrowFirst(planned)
    ensures OrderedOnce(planned)
  {
  }

  // An obligation that is due and not refused claims a coverage that has no canonical form.
  ghost predicate Miscovered(plan: Plan, refused: seq<Text>) {
    exists id: Text, o: Obligation, from: Option<Hint>, anew: bool :: id !in refused && Miscovers(plan, id, o, from, anew)
  }

  ghost predicate Miscovers(plan: Plan, id: Text, o: Obligation, from: Option<Hint>, anew: bool) {
    DueBy(plan, id, from, anew) && Leads(plan, id, from, anew) && Declares(plan, id, o)
    && plan.canonicalCoverage(o, Claimed(o, from)).None?
  }

  lemma QueuedForIsDue(plan: Plan, q: Request, o: Obligation, from: Option<Hint>, anew: bool)
    requires QueuedFor(plan, q, o, from, anew)
    ensures DueBy(plan, q.obligationId, from, anew) && ById(plan.obligations, q.obligationId) == Some(o)
    ensures q.acceptanceCoverage == Claimed(o, from)
  {
    DeclaresIff(plan, q.obligationId, o);
  }

  // The ground that queued a request, and no other, decides whether it can be covered.
  lemma LeadingGround(plan: Plan, planned: seq<Request>, q: Request) returns (o: Obligation, from: Option<Hint>, anew: bool)
    requires Queue(plan, Calls(plan), planned) && q in planned
    ensures DueBy(plan, q.obligationId, from, anew) && Leads(plan, q.obligationId, from, anew)
    ensures ById(plan.obligations, q.obligationId) == Some(o) && q.acceptanceCoverage == Claimed(o, from)
  {
    QueueIsSound(plan, planned, q);
    o, from, anew :| QueuedFor(plan, q, o, from, anew) && Leads(plan, q.obligationId, from, anew);
    QueuedForIsDue(plan, q, o, from, anew);
  }

  lemma MiscoversOnlyAsLed(plan: Plan, id: Text, o: Obligation, from: Option<Hint>, anew: bool, o': Obligation,
                           from': Option<Hint>, anew': bool)
    requires DueBy(plan, id, from, anew) && Leads(plan, id, from, anew) && ById(plan.obligations, id) == Some(o)
    requires Miscovers(plan, id, o', from', anew')
    ensures plan.canonicalCoverage(o, Claimed(o, from)).None?
  {
    LeadsOnce(plan, id, from, anew, from', anew');
    DeclaresIff(plan, id, o');
  }

  lemma UncoveredMiscovers(plan: Plan, planned: seq<Request>, q: Request)
    requires Queue(plan, Calls(plan), planned) && q in planned && !Covered(plan, q)
    ensures exists o: Obligation, from: Option<Hint>, anew: bool :: Miscovers(plan, q.obligationId, o, from, anew)
  {
    var o, from, anew := LeadingGround(plan, planned, q);
    DeclaresIff(plan, q.obligationId, o);
    assert Miscovers(plan, q.obligationId, o, from, anew);
  }

  lemma MiscoversUncovered(plan: Plan, planned: seq<Request>, q: Request, o: Obligation, from: Option<Hint>, anew: bool)
    requires Queue(plan, Calls(plan), planned) && q in planned && Miscovers(plan, q.obligationId, o, from, anew)
    ensures !Covered(plan, q)
  {
    var led, leads, again := LeadingGround(plan, planned, q);
    MiscoversOnlyAsLed(plan, q.obligationId, led, leads, again, o, from, anew);
  }

  lemma MiscoveredIff(plan: Plan, planned: seq<Request>, refused: seq<Text>)
    requires Queue(plan, Calls(plan), planned)
    ensures Miscovered(plan, refused) <==> exists q :: q in Kept(planned, refused) && !Covered(plan, q)
  {
    if q :| q in Kept(planned, refused) && !Covered(plan, q) {
      KeptMember(planned, refused, q);
      UncoveredMiscovers(plan, planned, q);
    }
    if id: Text, o: Obligation, from: Option<Hint>, anew: bool :| id !in refused && Miscovers(plan, id, o, from, anew) {
      assert Due(plan, id);
      var q := DueIsQueued(plan, planned, id);
      KeptMember(planned, refused, q);
      MiscoversUncovered(plan, planned, q, o, from, anew);
    }
  }

  lemma OneJobMore(plan: Plan, requests: seq<Request>, jobs: seq<Job>, q: Request)
    requires JobsOf(plan, requests, jobs) && Covered(plan, q)
    ensures JobsOf(plan, requests + [q], jobs + [JobOf(plan, q)])
  {
  }

  // Every request is checked; one that fails the check rejects the report.
  method CheckCoverage(plan: Plan, requests: seq<Request>) returns (jobs: Option<seq<Job>>)
    ensures jobs.None? <==> exists q :: q in requests && !Covered(plan, q)
    ensures jobs.Some? ==> JobsOf(plan, requests, jobs.value)
  {
    var rejected := false;
    var checked: seq<Job> := [];
    for n := 0 to |requests|
      invariant rejected ==> exists q :: q in requests && !Covered(plan, q)
      invariant !rejected ==> JobsOf(plan, requests[..n], checked)
    {
      assert requests[..n + 1] == requests[..n] + [requests[n]];
      if !Covered(plan, requests[n]) {
        assert requests[n] in requests;
        rejected := true;
      } else if !rejected {
        OneJobMore(plan, requests[..n], checked, requests[n]);
        checked := checked + [JobOf(plan, requests[n])];
      }
    }
    assert requests[..|requests|] == requests;
    jobs := if rejected then None else Some(checked);
  }

  // The refused judgments come first among the failures, each at its obligation's scope.
  ghost predicate SeededWith(plan: Plan, refused: seq<Text>, first: seq<Failure>, failures: seq<Failure>) {
    && |first| + |refused| <= |failures| && failures[..|first|] == first
    && forall k :: |first| <= k < |first| + |refused| ==>
         failures[k].obligationId == refused[k - |first|] && failures[k].scope == ScopeOf(plan, refused[k - |first|])
  }

  lemma SeedsComeFirst(plan: Plan, refused: seq<Text>, first: seq<Failure>, failures: seq<Failure>)
    requires first + Seeded(plan, refused) <= failures
    ensures SeededWith(plan, refused, first, failures)
  {
    var seeded := first + Seeded(plan, refused);
    assert failures[..|seeded|] == seeded;
    assert failures[..|first|] == seeded[..|first|] == first;
    forall k | |first| <= k < |first| + |refused|
      ensures failures[k].obligationId == refused[k - |first|] && failures[k].scope == ScopeOf(plan, refused[k - |first|])
    {
      assert failures[k] == seeded[k] == Seeded(plan, refused)[k - |first|];
    }
  }

  // The jobs are those of the planned queue that no refused judgment keeps out.
  ghost predicate JobsOfReport(plan: Plan, refused: seq<Text>, jobs: seq<Job>) {
    exists planned :: Queue(plan, Calls(plan), planned) && NarrowFirst(planned) && JobsOf(plan, Kept(planned, refused), jobs)
  }

  // A report plans its proofs, checks what they claim to cover and runs the queue: it fails exactly when a
  // candidate's obligation has no command, is rejected exactly for an impossible coverage, and else executes
  // exactly what is due, and leaves what the commands did.
  method ProveReport(plan: Plan, refused: seq<Text>, host: Host, start: World)
    returns (outcome: Outcome, ghost jobs: seq<Job>, ghost befores: seq<Workspace>)
    requires start.stopped.None?
    ensures outcome.PlanFailed? <==> Unprovable(plan)
    ensures outcome.CoverageRejected? <==> !Unprovable(plan) && Miscovered(plan, refused)
    ensures outcome.Proved? ==> SeededWith(plan, refused, start.failures, outcome.world.failures)
    ensures outcome.Proved? ==>
              JobsOfReport(plan, refused, jobs) && |befores| <= |jobs|
              && outcome.world.failures[|start.failures| + |refused|..] == Unproved(host, jobs, befores)
    ensures outcome.Proved? && outcome.world.stopped.None? ==>
              ExecutesExactly(plan, refused, start, outcome.world)
              && RanSo(host, jobs, start.(failures := outcome.world.failures[..|start.failures| + |refused|]), befores, outcome.world)
  {
    jobs, befores := [], [];
    var planning := ProofRequestsForReport(plan);
    UnprovableIff(plan);
    if planning.Err? { return PlanFailed(planning.error), [], []; }
    PlannedIsOrderedOnce(plan, planning.value);
    MiscoveredIff(plan, planning.value, refused);
    var checked := CheckCoverage(plan, Kept(planning.value, refused));
    if checked.None? { return CoverageRejected, [], []; }
    var seeded := start.(failures := start.failures + Seeded(plan, refused));
    jobs := checked.value;
    var done;
    done, befores := RunQueue(host, checked.value, seeded);
    if done.stopped.None? { QueueRunsExactly(plan, planning.value, refused, jobs, host, seeded); }
    assert done.failures[..|start.failures| + |refused|] == seeded.failures;
    SeedsComeFirst(plan, refused, start.failures, done.failures);
    outcome := Proved(done);
  }

  lemma QueueRunsExactly(plan: Plan, planned: seq<Request>, refused: seq<Text>, jobs: seq<Job>, host: Host, start: World)
    requires Queue(plan, Calls(plan), planned) && OrderedOnce(planned) && JobsOf(plan, Kept(planned, refused), jobs)
    requires Plain(host, jobs, 0, start).stopped.None?
    ensures ExecutesExactly(plan, refused, start, Plain(host, jobs, 0, start))
    ensures start.failures <= Plain(host, jobs, 0, start).failures
  {
    KeptIsOrderedOnce(planned, refused);
    JobsAreOrdered(plan, Kept(planned, refused), jobs);
    GateRunsExactly(host, jobs, 0, start);
    GateReadsAsReport(plan, planned, refused, jobs, start, Plain(host, jobs, 0, start));
  }
}
