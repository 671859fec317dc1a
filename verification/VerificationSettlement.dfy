/** The settlement scope of an obligation, derived and never stored. */
module VerificationSettlement {
  import opened Prelude
  import opened JsText
  import opened Sorting

  datatype Scope = Focused | Integration | Goal

  datatype SourceType = Knowledge | Caller | EvidencePlan | ProofPolicy | OtherSource

  datatype EvidenceLevel = WorkLevel | IntegrationLevel | GoalLevel

  datatype ScopeCandidate = ScopeCandidate(
    sourceType: SourceType, sourceRef: Text, scope: seq<Text>, freshnessInputs: seq<Text>)

  datatype Obligation = Obligation(
    id: Text,
    hard: bool,
    sourceType: SourceType,
    sourceRef: Text,
    acceptanceIds: seq<Text>,
    rootProofRequired: bool,
    evidenceLevel: Option<EvidenceLevel>,
    scope: seq<Text>,
    freshnessInputs: seq<Text>,
    scopeCandidates: seq<ScopeCandidate>,
    commandSources: seq<SourceType>,
    timeoutMs: Option<nat>)

  datatype Authority = Authority(scope: seq<Text>, freshnessInputs: seq<Text>, sourceType: SourceType, sourceRef: Text)

  function SourcePriority(sourceType: SourceType): nat {
    match sourceType
    case Knowledge => 0
    case Caller => 1
    case EvidencePlan => 2
    case ProofPolicy => 3
    case OtherSource => 99
  }

  // The locale order of source references is any total preorder on them.
  function CandidateLe(refLe: (Text, Text) -> bool): (ScopeCandidate, ScopeCandidate) -> bool {
    (left: ScopeCandidate, right: ScopeCandidate) =>
      SourcePriority(left.sourceType) < SourcePriority(right.sourceType)
      || (SourcePriority(left.sourceType) == SourcePriority(right.sourceType)
          && refLe(left.sourceRef, right.sourceRef))
  }

  function Trimmed(xs: seq<Text>): seq<Text> {
    if xs == [] then []
    else (if Trim(xs[0]) != [] then [Trim(xs[0])] else []) + Trimmed(xs[1..])
  }

  function NormalizeScope(scope: seq<Text>): seq<Text> {
    Sort(Dedupe(Trimmed(scope)), TextLe)
  }

  function FirstWithScope(candidates: seq<ScopeCandidate>): Option<ScopeCandidate> {
    if candidates == [] then None
    else if NormalizeScope(candidates[0].scope) != [] then Some(candidates[0])
    else FirstWithScope(candidates[1..])
  }

  // Only a declared scope can narrow freshness; the best-ranked candidate wins.
  function AuthoritativeScope(o: Obligation, refLe: (Text, Text) -> bool): Option<Authority> {
    match FirstWithScope(Sort(o.scopeCandidates, CandidateLe(refLe)))
    case Some(c) => Some(Authority(NormalizeScope(c.scope), Dedupe(c.freshnessInputs), c.sourceType, c.sourceRef))
    case None =>
      var scope := NormalizeScope(o.scope);
      if scope == [] then None else Some(Authority(scope, Dedupe(o.freshnessInputs), o.sourceType, o.sourceRef))
  }

  predicate RequiresRootProof(o: Obligation) {
    o.rootProofRequired || o.sourceType == ProofPolicy || ProofPolicy in o.commandSources
  }

  function SettlementScope(o: Option<Obligation>, refLe: (Text, Text) -> bool): Scope {
    if o.None? || RequiresRootProof(o.value) then Goal
    else match o.value.evidenceLevel
      case Some(GoalLevel) => Goal
      case Some(IntegrationLevel) => Integration
      case Some(WorkLevel) => Focused
      case None =>
        if AuthoritativeScope(o.value, refLe).Some? then Focused
        else if o.value.sourceType == EvidencePlan && o.value.acceptanceIds != [] then Focused
        else Goal
  }

  function Rank(scope: Scope): nat {
    match scope
    case Focused => 0
    case Integration => 1
    case Goal => 2
  }

  // left may stand before right: a narrower scope is never held up by a wider one.
  predicate NoWider(left: Scope, right: Scope) {
    match right
    case Focused => left == Focused
    case Integration => left == Focused || left == Integration
    case Goal => true
  }

  lemma RankIsNoWider(left: Scope, right: Scope)
    ensures Rank(left) <= Rank(right) <==> NoWider(left, right)
  {
  }

  function EvidenceLevelOf(o: Option<Obligation>, refLe: (Text, Text) -> bool): EvidenceLevel {
    if o.None? || RequiresRootProof(o.value) then GoalLevel
    else match o.value.evidenceLevel
      case Some(level) => level
      case None =>
        match SettlementScope(o, refLe)
        case Focused => WorkLevel
        case Integration => IntegrationLevel
        case Goal => GoalLevel
  }

  function LevelOfScope(scope: Scope): EvidenceLevel {
    match scope
    case Focused => WorkLevel
    case Integration => IntegrationLevel
    case Goal => GoalLevel
  }

  // The two derivations agree: settlement and evidence see one classification.
  lemma LevelsAgree(o: Option<Obligation>, refLe: (Text, Text) -> bool)
    ensures EvidenceLevelOf(o, refLe) == LevelOfScope(SettlementScope(o, refLe))
  {
  }

  // ---- What a scope is, said from the obligation's own fields ----

  predicate NamesPath(scope: seq<Text>) {
    exists k :: 0 <= k < |scope| && Trim(scope[k]) != []
  }

  lemma {:induction false} TrimmedMember(xs: seq<Text>, t: Text)
    ensures t in Trimmed(xs) <==> t != [] && exists k :: 0 <= k < |xs| && Trim(xs[k]) == t
  {
    if xs != [] {
      TrimmedMember(xs[1..], t);
      assert forall k :: 0 < k < |xs| ==> xs[k] == xs[1..][k - 1];
    }
  }

  lemma NormalizedMember(scope: seq<Text>, t: Text)
    ensures t in NormalizeScope(scope) <==> t != [] && exists k :: 0 <= k < |scope| && Trim(scope[k]) == t
  {
    TextOrdered();
    DedupeKeepsOneOfEach(Trimmed(scope));
    SortSorts(Dedupe(Trimmed(scope)), TextLe);
    TrimmedMember(scope, t);
  }

  lemma TwoPlaces<T>(xs: seq<T>, i: nat, j: nat)
    requires i < j < |xs| && xs[i] == xs[j]
    ensures multiset(xs)[xs[i]] >= 2
  {
    assert xs == xs[..i] + [xs[i]] + xs[i + 1..j] + [xs[j]] + xs[j + 1..];
  }

  // The trimmed non-blank entries, each once and in text order.
  lemma NormalizeScopeMeans(scope: seq<Text>)
    ensures forall t :: t in NormalizeScope(scope) <==> t != [] && exists k :: 0 <= k < |scope| && Trim(scope[k]) == t
    ensures forall i, j :: 0 <= i < j < |NormalizeScope(scope)| ==>
              TextLe(NormalizeScope(scope)[i], NormalizeScope(scope)[j]) && NormalizeScope(scope)[i] != NormalizeScope(scope)[j]
  {
    forall t ensures t in NormalizeScope(scope) <==> t != [] && exists k :: 0 <= k < |scope| && Trim(scope[k]) == t {
      NormalizedMember(scope, t);
    }
    TextOrdered();
    DedupeKeepsOneOfEach(Trimmed(scope));
    SortSorts(Dedupe(Trimmed(scope)), TextLe);
    var sorted := NormalizeScope(scope);
    forall i, j | 0 <= i < j < |sorted| ensures sorted[i] != sorted[j] {
      if sorted[i] == sorted[j] { TwoPlaces(sorted, i, j); }
    }
  }

  lemma NamedIffNormalized(scope: seq<Text>)
    ensures NormalizeScope(scope) != [] <==> NamesPath(scope)
  {
    NormalizeScopeMeans(scope);
    if NormalizeScope(scope) != [] { assert NormalizeScope(scope)[0] in NormalizeScope(scope); }
    if NamesPath(scope) {
      var k :| 0 <= k < |scope| && Trim(scope[k]) != [];
      assert Trim(scope[k]) in NormalizeScope(scope);
    }
  }

  predicate RootProof(o: Obligation) {
    o.rootProofRequired || o.sourceType == ProofPolicy
    || exists k :: 0 <= k < |o.commandSources| && o.commandSources[k] == ProofPolicy
  }

  predicate AnyPathNamed(o: Obligation) {
    NamesPath(o.scope) || exists k :: 0 <= k < |o.scopeCandidates| && NamesPath(o.scopeCandidates[k].scope)
  }

  // Without a root proof the declared level decides; an undeclared one is focused exactly if a path is
  // named or an evidence plan asks for acceptance, and everything else is a goal.
  lemma ScopeIff(o: Obligation, refLe: (Text, Text) -> bool)
    requires TotalPreorder(refLe)
    ensures SettlementScope(Some(o), refLe) == Focused
            <==> !RootProof(o)
                 && (o.evidenceLevel == Some(WorkLevel)
                     || (o.evidenceLevel == None
                         && (AnyPathNamed(o) || (o.sourceType == EvidencePlan && |o.acceptanceIds| > 0))))
    ensures SettlementScope(Some(o), refLe) == Integration <==> !RootProof(o) && o.evidenceLevel == Some(IntegrationLevel)
    ensures SettlementScope(None, refLe) == Goal
  {
    AuthorityIsBestCandidate(o, refLe);
    if k :| 0 <= k < |o.scopeCandidates| && NamesPath(o.scopeCandidates[k].scope) {
      assert o.scopeCandidates[k] in o.scopeCandidates;
    }
  }

  // Knowledge before the caller before an evidence plan before a proof policy before anything else.
  predicate SourceBefore(left: SourceType, right: SourceType) {
    match left
    case Knowledge => true
    case Caller => right != Knowledge
    case EvidencePlan => right != Knowledge && right != Caller
    case ProofPolicy => right == ProofPolicy || right == OtherSource
    case OtherSource => right == OtherSource
  }

  ghost predicate Best(o: Obligation, refLe: (Text, Text) -> bool, best: ScopeCandidate) {
    best in o.scopeCandidates && NamesPath(best.scope)
    && forall c :: c in o.scopeCandidates && NamesPath(c.scope) ==>
         SourceBefore(best.sourceType, c.sourceType)
         && (best.sourceType == c.sourceType ==> refLe(best.sourceRef, c.sourceRef))
  }

  lemma CandidatesAreOrdered(refLe: (Text, Text) -> bool)
    requires TotalPreorder(refLe)
    ensures TotalPreorder(CandidateLe(refLe))
    ensures forall x, y :: CandidateLe(refLe)(x, y)
                           <==> SourceBefore(x.sourceType, y.sourceType)
                                && (x.sourceType == y.sourceType ==> refLe(x.sourceRef, y.sourceRef))
  {
    var le := CandidateLe(refLe);
    forall x, y, z ensures (le(x, y) || le(y, x)) && (le(x, y) && le(y, z) ==> le(x, z)) {
      assert refLe(x.sourceRef, y.sourceRef) || refLe(y.sourceRef, x.sourceRef);
      assert refLe(x.sourceRef, y.sourceRef) && refLe(y.sourceRef, z.sourceRef) ==> refLe(x.sourceRef, z.sourceRef);
    }
  }

  // The authority is the best candidate that names a path, and with none of them the obligation itself.
  lemma AuthorityIsBestCandidate(o: Obligation, refLe: (Text, Text) -> bool)
    requires TotalPreorder(refLe)
    ensures (exists c :: c in o.scopeCandidates && NamesPath(c.scope))
            ==> exists best :: Best(o, refLe, best)
                  && AuthoritativeScope(o, refLe) == Some(Authority(NormalizeScope(best.scope), Dedupe(best.freshnessInputs),
                                                                    best.sourceType, best.sourceRef))
    ensures !(exists c :: c in o.scopeCandidates && NamesPath(c.scope))
            ==> AuthoritativeScope(o, refLe)
                == if NamesPath(o.scope)
                   then Some(Authority(NormalizeScope(o.scope), Dedupe(o.freshnessInputs), o.sourceType, o.sourceRef))
                   else None
  {
    var le := CandidateLe(refLe);
    CandidatesAreOrdered(refLe);
    var sorted := Sort(o.scopeCandidates, le);
    SortSorts(o.scopeCandidates, le);
    FirstIsBest(sorted, le);
    NamedIffNormalized(o.scope);
    forall c: ScopeCandidate ensures NormalizeScope(c.scope) != [] <==> NamesPath(c.scope) { NamedIffNormalized(c.scope); }
    if FirstWithScope(sorted).Some? { assert Best(o, refLe, FirstWithScope(sorted).value); }
  }

  lemma {:induction false} FirstIsBest(candidates: seq<ScopeCandidate>, le: (ScopeCandidate, ScopeCandidate) -> bool)
    requires TotalPreorder(le) && Sorted(candidates, le)
    ensures FirstWithScope(candidates).None?
            <==> forall c :: c in candidates ==> NormalizeScope(c.scope) == []
    ensures FirstWithScope(candidates).Some? ==>
              (var best := FirstWithScope(candidates).value;
               best in candidates && NormalizeScope(best.scope) != []
               && forall c :: c in candidates && NormalizeScope(c.scope) != [] ==> le(best, c))
  {
    if candidates != [] {
      FirstIsBest(candidates[1..], le);
      assert candidates == [candidates[0]] + candidates[1..];
      forall c | c in candidates[1..] ensures le(candidates[0], c) {
        var k :| 0 <= k < |candidates[1..]| && candidates[1..][k] == c;
        assert candidates[k + 1] == c;
      }
      assert le(candidates[0], candidates[0]);
    }
  }
}
