/** The context builder: layers of records, the stage budget and the receipt. */
module ContextBuild {
  import opened Prelude
  import opened JsText

  datatype Layer = PrincipleLayer | ContractLayer | StageLayer | ReferenceLayer | EvidenceLayer

  // A field of an unchecked record.
  datatype Field = Undefined | Str(text: Text) | Other

  datatype Candidate =
    | NotARecord
    | Fields(id: Field, type_: Field, content: Option<Text>, revision: Field, sourceRef: Field)

  datatype Record = Record(id: Text, type_: Text, content: Text, revision: Text, sourceRef: Option<Text>)

  datatype Entry = Entry(
    id: Text, layer: Layer, revision: Text, contentDigest: Text, sourceRef: Option<Text>, truncated: bool)

  datatype Reason = ForbiddenType | ContextBudget

  datatype Omitted = Omitted(id: Text, reason: Reason)

  datatype Block = Block(text: Text, entries: seq<Entry>, required: bool)

  datatype Failure =
    | RecordInvalid(layer: Layer, index: nat)
    | RevisionInvalid(layer: Layer, index: nat)
    | SourceInvalid(layer: Layer, index: nat)
    | RequiredExceedsBudget

  // The policy, and the text functions that are not looked into: the headings, the
  // redaction, the digest and the test for a forbidden type.
  datatype Policy = Policy(
    heading: Layer -> Text,
    fenceLabel: Layer -> Text,
    sanitize: Text -> Text,
    digest: Text -> Text,
    forbidden: Text -> bool,
    revision: Text,
    stableTokenBudget: nat,
    stageTokenBudget: nat)

  // Principles and contract are the texts they are rendered to, when there are any.
  datatype Input = Input(
    principles: Option<Text>,
    taskContract: Option<Text>,
    stageRecords: seq<Candidate>,
    references: seq<Candidate>,
    evidence: seq<Candidate>)

  datatype Context = Context(promptBlock: Text, included: seq<Entry>, omitted: seq<Omitted>, tokenEstimate: nat)

  const STABLE_PRINCIPLES: Text := Ascii("stable-principles")
  const TASK_CONTRACT: Text := Ascii("task-contract")
  const UNKNOWN: Text := Ascii("unknown")
  const TRUNCATED: Text := Ascii("\n[TRUNCATED]")
  const NEWLINE: Unit := 0x0A

  function EstimateTokens(text: Text): nat {
    (|text| + 3) / 4
  }

  function Joined(parts: seq<Text>, separator: Text): Text {
    if parts == [] then []
    else if |parts| == 1 then parts[0]
    else Joined(parts[..|parts| - 1], separator) + separator + parts[|parts| - 1]
  }

  // ---- Records ----

  function NormalizeRecord(candidate: Candidate, index: nat, layer: Layer): Result<Record, Failure> {
    match candidate
    case NotARecord => Err(RecordInvalid(layer, index))
    case Fields(id, type_, content, revision, sourceRef) =>
      if !id.Str? || id.text == [] || !type_.Str? || type_.text == [] || content.None? then
        Err(RecordInvalid(layer, index))
      else if revision.Other? then Err(RevisionInvalid(layer, index))
      else if sourceRef.Other? then Err(SourceInvalid(layer, index))
      else
        Ok(Record(id.text, type_.text, content.value,
                  if revision.Str? && revision.text != [] then revision.text else UNKNOWN,
                  if sourceRef.Str? && sourceRef.text != [] then Some(sourceRef.text) else None))
  }

  // What a record is made from.
  lemma RecordIsNormalized(candidate: Candidate, index: nat, layer: Layer)
    requires NormalizeRecord(candidate, index, layer).Ok?
    ensures (var record := NormalizeRecord(candidate, index, layer).value;
             && candidate.Fields? && |record.id| > 0 && |record.type_| > 0
             && candidate.id == Str(record.id) && candidate.type_ == Str(record.type_) && candidate.content == Some(record.content)
             && (match candidate.revision
                 case Str(text) => record.revision == if |text| > 0 then text else Ascii("unknown")
                 case Undefined => record.revision == Ascii("unknown")
                 case Other => false)
             && (match candidate.sourceRef
                 case Str(text) => record.sourceRef == if |text| > 0 then Some(text) else None
                 case Undefined => record.sourceRef == None
                 case Other => false))
  {
  }

  predicate NoText(field: Field) {
    match field case Str(text) => |text| == 0 case _ => true
  }

  // What is wrong with any other candidate.
  lemma InvalidIsNamed(candidate: Candidate, index: nat, layer: Layer)
    requires NormalizeRecord(candidate, index, layer).Err?
    ensures (match NormalizeRecord(candidate, index, layer).error
             case RecordInvalid(l, i) =>
               (l, i) == (layer, index)
               && (candidate.Fields? ==> NoText(candidate.id) || NoText(candidate.type_) || candidate.content == None)
             case RevisionInvalid(l, i) => (l, i) == (layer, index) && candidate.Fields? && candidate.revision == Other
             case SourceInvalid(l, i) => (l, i) == (layer, index) && candidate.Fields? && candidate.sourceRef == Other
             case RequiredExceedsBudget => false)
  {
  }

  // All records of a layer, or the first candidate's failure.
  function Records(candidates: seq<Candidate>, layer: Layer): Result<seq<Record>, Failure> {
    if candidates == [] then Ok([])
    else
      var last := |candidates| - 1;
      match Records(candidates[..last], layer)
      case Err(failure) => Err(failure)
      case Ok(records) =>
        match NormalizeRecord(candidates[last], last, layer)
        case Err(failure) => Err(failure)
        case Ok(record) => Ok(records + [record])
  }

  function Fenced(policy: Policy, layer: Layer, record: Record): (content: Text)
    ensures content != []
  {
    var tag := policy.fenceLabel(layer);
    [0x3C] + tag + [0x3E, NEWLINE] + policy.sanitize(record.content) + [NEWLINE, 0x3C, SLASH] + tag + [0x3E]
  }

  function EntryOf(policy: Policy, layer: Layer, record: Record): Entry {
    Entry(record.id, layer, record.revision, policy.digest(Fenced(policy, layer, record)), record.sourceRef, false)
  }

  function Allowed(policy: Policy, records: seq<Record>): seq<Record> {
    if records == [] then []
    else
      var before, record := Allowed(policy, records[..|records| - 1]), records[|records| - 1];
      if policy.forbidden(record.type_) then before else before + [record]
  }

  function Forbidden(policy: Policy, records: seq<Record>): seq<Omitted> {
    if records == [] then []
    else
      var before, record := Forbidden(policy, records[..|records| - 1]), records[|records| - 1];
      if policy.forbidden(record.type_) then before + [Omitted(record.id, ForbiddenType)] else before
  }

  function Contents(policy: Policy, layer: Layer, records: seq<Record>): seq<Text> {
    seq(|records|, i requires 0 <= i < |records| => Fenced(policy, layer, records[i]))
  }

  function Entries(policy: Policy, layer: Layer, records: seq<Record>): seq<Entry> {
    seq(|records|, i requires 0 <= i < |records| => EntryOf(policy, layer, records[i]))
  }

  lemma Associates(a: seq<Omitted>, b: seq<Omitted>, c: seq<Omitted>)
    ensures a + b + c == a + (b + c)
  {
  }

  method AcceptLayer(policy: Policy, layer: Layer, candidates: seq<Candidate>, omitted: seq<Omitted>)
    returns (failure: Option<Failure>, contents: seq<Text>, entries: seq<Entry>, omitted': seq<Omitted>)
    ensures failure.Some? <==> Records(candidates, layer).Err?
    ensures failure.Some? ==> Records(candidates, layer).error == failure.value
    ensures failure.None? ==>
              var records := Records(candidates, layer).value;
              && contents == Contents(policy, layer, Allowed(policy, records))
              && entries == Entries(policy, layer, Allowed(policy, records))
              && omitted' == omitted + Forbidden(policy, records)
  {
    contents, entries, omitted' := [], [], omitted;
    ghost var records: seq<Record> := [];
    for i := 0 to |candidates|
      invariant Records(candidates[..i], layer) == Ok(records)
      invariant contents == Contents(policy, layer, Allowed(policy, records))
      invariant entries == Entries(policy, layer, Allowed(policy, records))
      invariant omitted' == omitted + Forbidden(policy, records)
    {
      var normalized := NormalizeRecord(candidates[i], i, layer);
      NextCandidate(candidates, i, layer);
      if normalized.Err? {
        FirstFailureWins(candidates, i + 1, layer);
        return Some(normalized.error), [], [], omitted;
      }
      var record := normalized.value;
      NextRecord(policy, layer, records, record);
      if policy.forbidden(record.type_) {
        Associates(omitted, Forbidden(policy, records), [Omitted(record.id, ForbiddenType)]);
        omitted' := omitted' + [Omitted(record.id, ForbiddenType)];
      } else {
        contents := contents + [Fenced(policy, layer, record)];
        entries := entries + [EntryOf(policy, layer, record)];
      }
      records := records + [record];
    }
    assert candidates[..|candidates|] == candidates;
    failure := None;
  }

  lemma NextCandidate(candidates: seq<Candidate>, i: nat, layer: Layer)
    requires i < |candidates| && Records(candidates[..i], layer).Ok?
    ensures Records(candidates[..i + 1], layer)
            == match NormalizeRecord(candidates[i], i, layer)
               case Err(failure) => Err(failure)
               case Ok(record) => Ok(Records(candidates[..i], layer).value + [record])
  {
    assert candidates[..i + 1][..i] == candidates[..i];
  }

  lemma NextRecord(policy: Policy, layer: Layer, records: seq<Record>, record: Record)
    ensures (var before, after := Allowed(policy, records), Allowed(policy, records + [record]);
             if policy.forbidden(record.type_) then
               after == before
               && Forbidden(policy, records + [record]) == Forbidden(policy, records) + [Omitted(record.id, ForbiddenType)]
             else
               Forbidden(policy, records + [record]) == Forbidden(policy, records)
               && Contents(policy, layer, after) == Contents(policy, layer, before) + [Fenced(policy, layer, record)]
               && Entries(policy, layer, after) == Entries(policy, layer, before) + [EntryOf(policy, layer, record)])
  {
    assert (records + [record])[..|records|] == records;
  }

  lemma {:induction false} FirstFailureWins(candidates: seq<Candidate>, n: nat, layer: Layer)
    requires n <= |candidates| && Records(candidates[..n], layer).Err?
    ensures Records(candidates, layer) == Records(candidates[..n], layer)
    decreases |candidates|
  {
    if n == |candidates| {
      assert candidates[..n] == candidates;
    } else {
      var init := candidates[..|candidates| - 1];
      assert init[..n] == candidates[..n];
      FirstFailureWins(init, n, layer);
    }
  }

  // ---- Blocks ----

  // String.prototype.slice(0, end)
  function SliceTo(text: Text, end: int): Text {
    if end < 0 then (if |text| + end < 0 then [] else text[..|text| + end])
    else if end > |text| then text
    else text[..end]
  }

  function Truncated(policy: Policy, text: Text): Text {
    SliceTo(text, policy.stableTokenBudget * 4 - 24) + TRUNCATED
  }

  function MarkTruncated(entries: seq<Entry>): seq<Entry> {
    seq(|entries|, i requires 0 <= i < |entries| => entries[i].(truncated := true))
  }

  // Required text is never cut; optional text over the stable budget is.
  function MakeBlock(policy: Policy, text: Text, entries: seq<Entry>, required: bool): Block {
    if required || EstimateTokens(text) <= policy.stableTokenBudget then Block(text, entries, required)
    else Block(Truncated(policy, text), MarkTruncated(entries), required)
  }

  function PrincipleBlocks(policy: Policy, principles: Option<Text>): (blocks: seq<Block>)
    ensures forall b :: b in blocks ==> b.required
  {
    if principles.None? then []
    else [MakeBlock(policy, policy.heading(PrincipleLayer) + principles.value,
                    [Entry(STABLE_PRINCIPLES, PrincipleLayer, policy.revision, policy.digest(principles.value), None, false)],
                    true)]
  }

  function ContractBlocks(policy: Policy, contract: Option<Text>): (blocks: seq<Block>)
    ensures forall b :: b in blocks ==> b.required
  {
    if contract.None? then []
    else [MakeBlock(policy, policy.heading(ContractLayer) + contract.value,
                    [Entry(TASK_CONTRACT, ContractLayer, policy.revision, policy.digest(contract.value), None, false)],
                    true)]
  }

  function Separator(layer: Layer): Text {
    if layer == StageLayer then [NEWLINE, NEWLINE] else [NEWLINE]
  }

  function LayerBlocks(policy: Policy, layer: Layer, contents: seq<Text>, entries: seq<Entry>): (blocks: seq<Block>)
    ensures forall b :: b in blocks ==> !b.required
  {
    if contents == [] then []
    else [MakeBlock(policy, policy.heading(layer) + Joined(contents, Separator(layer)), entries, false)]
  }

  // The contents of the stage layer stand a blank line apart, those of the others a line.
  lemma SeparatorIs(layer: Layer)
    ensures Separator(layer) == match layer case StageLayer => Ascii("\n\n") case _ => Ascii("\n")
  {
  }

  function BlockTexts(blocks: seq<Block>): seq<Text> {
    seq(|blocks|, i requires 0 <= i < |blocks| => blocks[i].text)
  }

  function Prompt(blocks: seq<Block>): Text {
    Joined(BlockTexts(blocks), [NEWLINE, NEWLINE])
  }

  function Cost(blocks: seq<Block>): nat {
    EstimateTokens(Prompt(blocks))
  }

  // ---- The budget ----

  function BudgetOmissions(entries: seq<Entry>): seq<Omitted> {
    seq(|entries|, i requires 0 <= i < |entries| => Omitted(entries[i].id, ContextBudget))
  }

  // How many optional blocks stay: the last goes first, until the rest fits.
  function Keep(required: seq<Block>, optional: seq<Block>, budget: nat): (k: nat)
    ensures k <= |optional|
  {
    if optional == [] || Cost(required + optional) <= budget then |optional|
    else Keep(required, optional[..|optional| - 1], budget)
  }

  function Dropped(optional: seq<Block>, k: nat): seq<Omitted>
    requires k <= |optional|
    decreases |optional| - k
  {
    if k == |optional| then [] else Dropped(optional, k + 1) + BudgetOmissions(optional[k].entries)
  }

  method LastOptional(blocks: seq<Block>) returns (lastOptional: int)
    ensures -1 <= lastOptional < |blocks|
    ensures lastOptional >= 0 ==> !blocks[lastOptional].required
    ensures forall i :: lastOptional < i < |blocks| ==> blocks[i].required
  {
    lastOptional := |blocks| - 1;
    while lastOptional >= 0 && blocks[lastOptional].required
      invariant -1 <= lastOptional < |blocks|
      invariant forall i :: lastOptional < i < |blocks| ==> blocks[i].required
    {
      lastOptional := lastOptional - 1;
    }
  }

  lemma LastIsOptional(required: seq<Block>, optional: seq<Block>, last: int)
    requires (forall b :: b in required ==> b.required) && (forall b :: b in optional ==> !b.required)
    requires (var blocks := required + optional;
              -1 <= last < |blocks| && (last >= 0 ==> !blocks[last].required)
              && forall i :: last < i < |blocks| ==> blocks[i].required)
    ensures if optional == [] then last == -1
            else && last == |required| + |optional| - 1
                 && (required + optional)[..last] + (required + optional)[last + 1..] == required + optional[..|optional| - 1]
  {
    var blocks := required + optional;
    if optional != [] { assert blocks[|blocks| - 1] in optional; }
    assert forall i :: 0 <= i < |required| ==> blocks[i] == required[i] && required[i] in required;
  }

  method FitBudget(initial: seq<Block>, budget: nat, omitted: seq<Omitted>,
                   ghost required: seq<Block>, ghost optional: seq<Block>)
    returns (blocks: seq<Block>, promptBlock: Text, currentTokens: nat, omitted': seq<Omitted>)
    requires initial == required + optional
    requires (forall b :: b in required ==> b.required) && (forall b :: b in optional ==> !b.required)
    ensures (var k := Keep(required, optional, budget);
             && blocks == required + optional[..k] && omitted' == omitted + Dropped(optional, k))
    ensures promptBlock == Prompt(blocks) && currentTokens == EstimateTokens(promptBlock)
  {
    blocks, omitted' := initial, omitted;
    promptBlock := Prompt(blocks);
    currentTokens := EstimateTokens(promptBlock);
    ghost var k := |optional|;
    assert optional[..k] == optional;
    while currentTokens > budget
      invariant 0 <= k <= |optional| && blocks == required + optional[..k]
      invariant promptBlock == Prompt(blocks) && currentTokens == EstimateTokens(promptBlock)
      invariant omitted' == omitted + Dropped(optional, k)
      invariant Keep(required, optional[..k], budget) == Keep(required, optional, budget)
      decreases k
    {
      var lastOptional := LastOptional(blocks);
      assert forall b :: b in optional[..k] ==> b in optional;
      LastIsOptional(required, optional[..k], lastOptional);
      if lastOptional < 0 { break; }
      assert optional[..k][..k - 1] == optional[..k - 1];
      var removedBlock := blocks[lastOptional];
      blocks := blocks[..lastOptional] + blocks[lastOptional + 1..];
      Associates(omitted, Dropped(optional, k), BudgetOmissions(removedBlock.entries));
      omitted' := omitted' + BudgetOmissions(removedBlock.entries);
      promptBlock := Prompt(blocks);
      currentTokens := EstimateTokens(promptBlock);
      k := k - 1;
    }
  }

  // ---- The receipt ----

  function Kept(blocks: seq<Block>): seq<Entry> {
    if blocks == [] then [] else Kept(blocks[..|blocks| - 1]) + blocks[|blocks| - 1].entries
  }

  function Ids(entries: seq<Entry>): seq<Text> {
    seq(|entries|, i requires 0 <= i < |entries| => entries[i].id)
  }

  // Each id once, where it first occurs.
  function FirstById(entries: seq<Entry>): seq<Entry> {
    if entries == [] then []
    else
      var before, entry := FirstById(entries[..|entries| - 1]), entries[|entries| - 1];
      if entry.id in Ids(before) then before else before + [entry]
  }

  method RebuildIncluded(blocks: seq<Block>) returns (included: seq<Entry>)
    ensures included == FirstById(Kept(blocks))
  {
    var retainedEntries := Kept(blocks);
    var seenIds: set<Text> := {};
    included := [];
    for i := 0 to |retainedEntries|
      invariant included == FirstById(retainedEntries[..i])
      invariant forall id :: id in seenIds <==> id in Ids(included)
    {
      var entry := retainedEntries[i];
      assert retainedEntries[..i + 1][..i] == retainedEntries[..i];
      if entry.id !in seenIds {
        assert Ids(included + [entry]) == Ids(included) + [entry.id];
        seenIds := seenIds + {entry.id};
        included := included + [entry];
      }
    }
    assert retainedEntries[..|retainedEntries|] == retainedEntries;
  }

  // ---- The whole build ----

  function RequiredBlocks(policy: Policy, input: Input): seq<Block> {
    PrincipleBlocks(policy, input.principles) + ContractBlocks(policy, input.taskContract)
  }

  function AllowedBlocks(policy: Policy, layer: Layer, records: seq<Record>): seq<Block> {
    var allowed := Allowed(policy, records);
    LayerBlocks(policy, layer, Contents(policy, layer, allowed), Entries(policy, layer, allowed))
  }

  function OptionalBlocks(policy: Policy, staged: seq<Record>, referenced: seq<Record>, evident: seq<Record>): seq<Block> {
    AllowedBlocks(policy, StageLayer, staged) + AllowedBlocks(policy, ReferenceLayer, referenced)
    + AllowedBlocks(policy, EvidenceLayer, evident)
  }

  function Selected(policy: Policy, required: seq<Block>, optional: seq<Block>, forbidden: seq<Omitted>)
    : Result<Context, Failure>
  {
    var k := Keep(required, optional, policy.stageTokenBudget);
    var blocks := required + optional[..k];
    if Cost(blocks) > policy.stageTokenBudget then Err(RequiredExceedsBudget)
    else Ok(Context(Prompt(blocks), FirstById(Kept(blocks)), forbidden + Dropped(optional, k), Cost(blocks)))
  }

  // The optional blocks and the forbidden records, or the first malformed record.
  function Collected(policy: Policy, input: Input): Result<(seq<Block>, seq<Omitted>), Failure> {
    match Records(input.stageRecords, StageLayer)
    case Err(failure) => Err(failure)
    case Ok(staged) =>
      match Records(input.references, ReferenceLayer)
      case Err(failure) => Err(failure)
      case Ok(referenced) =>
        match Records(input.evidence, EvidenceLayer)
        case Err(failure) => Err(failure)
        case Ok(evident) =>
          Ok((OptionalBlocks(policy, staged, referenced, evident),
              Forbidden(policy, staged) + Forbidden(policy, referenced) + Forbidden(policy, evident)))
  }

  function Built(policy: Policy, input: Input): Result<Context, Failure> {
    match Collected(policy, input)
    case Err(failure) => Err(failure)
    case Ok((optional, forbidden)) => Selected(policy, RequiredBlocks(policy, input), optional, forbidden)
  }

  method CollectBlocks(policy: Policy, input: Input) returns (r: Result<(seq<Block>, seq<Omitted>), Failure>)
    ensures r == Collected(policy, input)
  {
    var stageFailure, stageContent, stageEntries, omittedStage :=
      AcceptLayer(policy, StageLayer, input.stageRecords, []);
    if stageFailure.Some? { return Err(stageFailure.value); }
    var optional := LayerBlocks(policy, StageLayer, stageContent, stageEntries);

    var referenceFailure, refs, referenceEntries, omittedReferences :=
      AcceptLayer(policy, ReferenceLayer, input.references, omittedStage);
    if referenceFailure.Some? { return Err(referenceFailure.value); }
    optional := optional + LayerBlocks(policy, ReferenceLayer, refs, referenceEntries);

    var evidenceFailure, evidenceContent, evidenceEntries, omitted :=
      AcceptLayer(policy, EvidenceLayer, input.evidence, omittedReferences);
    if evidenceFailure.Some? { return Err(evidenceFailure.value); }
    optional := optional + LayerBlocks(policy, EvidenceLayer, evidenceContent, evidenceEntries);

    var staged := Records(input.stageRecords, StageLayer).value;
    assert [] + Forbidden(policy, staged) == Forbidden(policy, staged);
    return Ok((optional, omitted));
  }

  method BuildKernelContext(policy: Policy, input: Input) returns (r: Result<Context, Failure>)
    ensures r == Built(policy, input)
  {
    var collected := CollectBlocks(policy, input);
    if collected.Err? { return Err(collected.error); }
    var (optional, forbidden) := collected.value;
    BlocksByKind(policy, input);
    var required := PrincipleBlocks(policy, input.principles) + ContractBlocks(policy, input.taskContract);
    var blocks, promptBlock, currentTokens, omitted :=
      FitBudget(required + optional, policy.stageTokenBudget, forbidden, required, optional);
    if currentTokens > policy.stageTokenBudget { return Err(RequiredExceedsBudget); }
    var included := RebuildIncluded(blocks);
    return Ok(Context(promptBlock, included, omitted, currentTokens));
  }

  lemma BlocksByKind(policy: Policy, input: Input)
    requires Collected(policy, input).Ok?
    ensures forall b :: b in RequiredBlocks(policy, input) ==> b.required
    ensures forall b :: b in Collected(policy, input).value.0 ==> !b.required
  {
  }

  // ---- The budget loop is optimal ----

  lemma JoinedGrows(parts: seq<Text>, part: Text, separator: Text)
    ensures |Joined(parts, separator)| <= |Joined(parts + [part], separator)|
  {
    assert (parts + [part])[..|parts|] == parts;
  }

  lemma {:induction false} CostGrows(required: seq<Block>, optional: seq<Block>, i: nat, j: nat)
    requires i <= j <= |optional|
    ensures Cost(required + optional[..i]) <= Cost(required + optional[..j])
    decreases j - i
  {
    if i < j {
      CostGrows(required, optional, i, j - 1);
      var shorter, longer := required + optional[..j - 1], required + optional[..j];
      assert longer == shorter + [optional[j - 1]];
      assert BlockTexts(longer) == BlockTexts(shorter) + [optional[j - 1].text];
      JoinedGrows(BlockTexts(shorter), optional[j - 1].text, [NEWLINE, NEWLINE]);
    }
  }

  lemma {:induction false} KeepIsFit(required: seq<Block>, optional: seq<Block>, budget: nat)
    ensures (var k := Keep(required, optional, budget);
             (k > 0 ==> Cost(required + optional[..k]) <= budget)
             && forall j :: k < j <= |optional| ==> Cost(required + optional[..j]) > budget)
  {
    assert optional[..|optional|] == optional;
    if optional != [] && Cost(required + optional) > budget {
      var init := optional[..|optional| - 1];
      KeepIsFit(required, init, budget);
      forall j | 0 <= j <= |init| ensures init[..j] == optional[..j] {}
    }
  }

  // The prompt is all required blocks and the longest prefix of the optional
  // blocks that fits; when not even the required blocks fit, nothing does.
  lemma KeepIsLongest(required: seq<Block>, optional: seq<Block>, budget: nat)
    ensures (var k := Keep(required, optional, budget);
             forall j :: 0 <= j <= |optional| ==>
               (Cost(required + optional[..j]) <= budget <==> j <= k && Cost(required) <= budget))
  {
    var k := Keep(required, optional, budget);
    KeepIsFit(required, optional, budget);
    forall j | 0 <= j <= |optional|
      ensures Cost(required + optional[..j]) <= budget <==> j <= k && Cost(required) <= budget
    {
      assert required + optional[..0] == required;
      CostGrows(required, optional, 0, j);
      if j <= k { CostGrows(required, optional, j, k); }
    }
  }

  ghost predicate WellFormed(input: Input) {
    Records(input.stageRecords, StageLayer).Ok? && Records(input.references, ReferenceLayer).Ok?
    && Records(input.evidence, EvidenceLayer).Ok?
  }

  function Optional(policy: Policy, input: Input): seq<Block>
    requires WellFormed(input)
  {
    OptionalBlocks(policy, Records(input.stageRecords, StageLayer).value,
                   Records(input.references, ReferenceLayer).value, Records(input.evidence, EvidenceLayer).value)
  }

  // It fails for the budget exactly when the required blocks alone exceed it.
  lemma FailsIffRequiredExceeds(policy: Policy, input: Input)
    requires WellFormed(input)
    ensures Built(policy, input).Err? <==> Cost(RequiredBlocks(policy, input)) > policy.stageTokenBudget
    ensures Built(policy, input).Err? ==> Built(policy, input).error == RequiredExceedsBudget
  {
    KeepIsLongest(RequiredBlocks(policy, input), Optional(policy, input), policy.stageTokenBudget);
    var required, optional := RequiredBlocks(policy, input), Optional(policy, input);
    assert required + optional[..0] == required;
  }

  lemma PromptIsLongestFit(policy: Policy, input: Input)
    requires WellFormed(input) && Built(policy, input).Ok?
    ensures (var required, optional, context := RequiredBlocks(policy, input), Optional(policy, input), Built(policy, input).value;
             && context.tokenEstimate == EstimateTokens(context.promptBlock) <= policy.stageTokenBudget
             && exists k :: && 0 <= k <= |optional| && context.promptBlock == Prompt(required + optional[..k])
                            && forall j :: k < j <= |optional| ==> Cost(required + optional[..j]) > policy.stageTokenBudget)
  {
    KeepIsFit(RequiredBlocks(policy, input), Optional(policy, input), policy.stageTokenBudget);
  }

  // A cut block costs no more than the stable budget exactly when the budget is at
  // least six tokens; below, the slice end turns negative and keeps too much.
  lemma TruncatedFitsIff(policy: Policy, text: Text)
    requires EstimateTokens(text) > policy.stableTokenBudget
    ensures EstimateTokens(Truncated(policy, text)) <= policy.stableTokenBudget <==> policy.stableTokenBudget >= 6
  {
    assert |TRUNCATED| == 12;
  }

  // ---- The receipt accounts for every record ----

  function OmittedIds(omitted: seq<Omitted>): seq<Text> {
    seq(|omitted|, i requires 0 <= i < |omitted| => omitted[i].id)
  }

  function RecordIds(records: seq<Record>): seq<Text> {
    seq(|records|, i requires 0 <= i < |records| => records[i].id)
  }

  // What was submitted: the reserved ids in use and the ids of all records.
  function SubmittedIds(policy: Policy, input: Input): seq<Text>
    requires WellFormed(input)
  {
    (if input.principles.Some? then [STABLE_PRINCIPLES] else [])
    + (if input.taskContract.Some? then [TASK_CONTRACT] else [])
    + RecordIds(Records(input.stageRecords, StageLayer).value)
    + RecordIds(Records(input.references, ReferenceLayer).value)
    + RecordIds(Records(input.evidence, EvidenceLayer).value)
  }

  lemma OneMoreForbidden(policy: Policy, init: seq<Record>, record: Record)
    requires policy.forbidden(record.type_)
    ensures OmittedIds(Forbidden(policy, init + [record])) == OmittedIds(Forbidden(policy, init)) + [record.id]
    ensures Allowed(policy, init + [record]) == Allowed(policy, init)
  {
    assert (init + [record])[..|init|] == init;
  }

  lemma OneMoreAllowed(policy: Policy, init: seq<Record>, record: Record)
    requires !policy.forbidden(record.type_)
    ensures RecordIds(Allowed(policy, init + [record])) == RecordIds(Allowed(policy, init)) + [record.id]
    ensures Forbidden(policy, init + [record]) == Forbidden(policy, init)
  {
    assert (init + [record])[..|init|] == init;
  }

  lemma OneMoreRecord(init: seq<Record>, record: Record)
    ensures RecordIds(init + [record]) == RecordIds(init) + [record.id]
  {
  }

  lemma {:induction false} LayerSplits(policy: Policy, records: seq<Record>)
    ensures multiset(RecordIds(records))
            == multiset(RecordIds(Allowed(policy, records))) + multiset(OmittedIds(Forbidden(policy, records)))
  {
    if records != [] {
      var init, record := records[..|records| - 1], records[|records| - 1];
      assert records == init + [record];
      LayerSplits(policy, init);
      OneMoreRecord(init, record);
      if policy.forbidden(record.type_) {
        OneMoreForbidden(policy, init, record);
      } else {
        OneMoreAllowed(policy, init, record);
      }
    }
  }

  lemma KeptLast(init: seq<Block>, last: Block)
    ensures Kept(init + [last]) == Kept(init) + last.entries
  {
    assert (init + [last])[..|init|] == init;
  }

  lemma {:induction false} KeptAppend(left: seq<Block>, right: seq<Block>)
    ensures Kept(left + right) == Kept(left) + Kept(right)
  {
    if right == [] {
      assert left + right == left;
    } else {
      var init, last := right[..|right| - 1], right[|right| - 1];
      KeptAppend(left, init);
      KeptLast(left + init, last);
      KeptLast(init, last);
      assert init + [last] == right && left + init + [last] == left + right;
    }
  }

  lemma KeptOne(block: Block)
    ensures Kept([block]) == block.entries
  {
    assert [block][..0] == [] && Kept([]) == [];
  }

  lemma BlockIds(policy: Policy, text: Text, entries: seq<Entry>, required: bool)
    ensures Ids(MakeBlock(policy, text, entries, required).entries) == Ids(entries)
  {
  }

  // A layer's block carries one entry for each allowed record.
  lemma AllowedIds(policy: Policy, layer: Layer, records: seq<Record>)
    ensures Ids(Kept(AllowedBlocks(policy, layer, records))) == RecordIds(Allowed(policy, records))
  {
    var allowed := Allowed(policy, records);
    var contents, entries := Contents(policy, layer, allowed), Entries(policy, layer, allowed);
    if contents == [] {
      assert AllowedBlocks(policy, layer, records) == [] && RecordIds(allowed) == [];
    } else {
      var text := policy.heading(layer) + Joined(contents, Separator(layer));
      BlockIds(policy, text, entries, false);
      KeptOne(MakeBlock(policy, text, entries, false));
      assert Ids(entries) == RecordIds(allowed);
    }
  }

  lemma IdsAppend(left: seq<Entry>, right: seq<Entry>)
    ensures Ids(left + right) == Ids(left) + Ids(right)
  {
  }

  lemma OmittedAppend(left: seq<Omitted>, right: seq<Omitted>)
    ensures OmittedIds(left + right) == OmittedIds(left) + OmittedIds(right)
  {
  }

  lemma {:induction false} DroppedIds(optional: seq<Block>, k: nat)
    requires k <= |optional|
    ensures multiset(OmittedIds(Dropped(optional, k))) == multiset(Ids(Kept(optional[k..])))
    decreases |optional| - k
  {
    if k == |optional| {
      assert Kept(optional[k..]) == [];
    } else {
      DroppedIds(optional, k + 1);
      OmittedAppend(Dropped(optional, k + 1), BudgetOmissions(optional[k].entries));
      KeptFrom(optional, k);
    }
  }

  lemma KeptFrom(optional: seq<Block>, k: nat)
    requires k < |optional|
    ensures Ids(Kept(optional[k..])) == OmittedIds(BudgetOmissions(optional[k].entries)) + Ids(Kept(optional[k + 1..]))
  {
    assert OmittedIds(BudgetOmissions(optional[k].entries)) == Ids(optional[k].entries);
    assert optional[k..] == [optional[k]] + optional[k + 1..];
    KeptAppend([optional[k]], optional[k + 1..]);
    KeptOne(optional[k]);
    IdsAppend(optional[k].entries, Kept(optional[k + 1..]));
  }

  lemma KeptOrDropped(optional: seq<Block>, k: nat)
    requires k <= |optional|
    ensures multiset(Ids(Kept(optional[..k]))) + multiset(OmittedIds(Dropped(optional, k))) == multiset(Ids(Kept(optional)))
  {
    DroppedIds(optional, k);
    assert optional == optional[..k] + optional[k..];
    KeptAppend(optional[..k], optional[k..]);
    IdsAppend(Kept(optional[..k]), Kept(optional[k..]));
  }

  lemma OptionalIds(policy: Policy, staged: seq<Record>, referenced: seq<Record>, evident: seq<Record>)
    ensures Ids(Kept(OptionalBlocks(policy, staged, referenced, evident)))
            == RecordIds(Allowed(policy, staged)) + RecordIds(Allowed(policy, referenced)) + RecordIds(Allowed(policy, evident))
  {
    var s, r, e := AllowedBlocks(policy, StageLayer, staged), AllowedBlocks(policy, ReferenceLayer, referenced),
                   AllowedBlocks(policy, EvidenceLayer, evident);
    KeptAppend(s + r, e);
    KeptAppend(s, r);
    IdsAppend(Kept(s) + Kept(r), Kept(e));
    IdsAppend(Kept(s), Kept(r));
    AllowedIds(policy, StageLayer, staged);
    AllowedIds(policy, ReferenceLayer, referenced);
    AllowedIds(policy, EvidenceLayer, evident);
  }

  lemma ForbiddenIds(policy: Policy, staged: seq<Record>, referenced: seq<Record>, evident: seq<Record>)
    ensures OmittedIds(Forbidden(policy, staged) + Forbidden(policy, referenced) + Forbidden(policy, evident))
            == OmittedIds(Forbidden(policy, staged)) + OmittedIds(Forbidden(policy, referenced))
               + OmittedIds(Forbidden(policy, evident))
  {
    OmittedAppend(Forbidden(policy, staged) + Forbidden(policy, referenced), Forbidden(policy, evident));
    OmittedAppend(Forbidden(policy, staged), Forbidden(policy, referenced));
  }

  lemma Bag3(a: seq<Text>, b: seq<Text>, c: seq<Text>)
    ensures multiset(a + b + c) == multiset(a) + multiset(b) + multiset(c)
  {
  }

  // The records' ids are those of the optional blocks and of the forbidden records.
  lemma RecordsSplit(policy: Policy, staged: seq<Record>, referenced: seq<Record>, evident: seq<Record>)
    ensures multiset(RecordIds(staged) + RecordIds(referenced) + RecordIds(evident))
            == multiset(Ids(Kept(OptionalBlocks(policy, staged, referenced, evident))))
               + multiset(OmittedIds(Forbidden(policy, staged) + Forbidden(policy, referenced) + Forbidden(policy, evident)))
  {
    OptionalIds(policy, staged, referenced, evident);
    ForbiddenIds(policy, staged, referenced, evident);
    LayerSplits(policy, staged);
    LayerSplits(policy, referenced);
    LayerSplits(policy, evident);
    Bag3(RecordIds(staged), RecordIds(referenced), RecordIds(evident));
    Bag3(RecordIds(Allowed(policy, staged)), RecordIds(Allowed(policy, referenced)), RecordIds(Allowed(policy, evident)));
    Bag3(OmittedIds(Forbidden(policy, staged)), OmittedIds(Forbidden(policy, referenced)), OmittedIds(Forbidden(policy, evident)));
  }

  lemma RequiredIds(policy: Policy, input: Input)
    ensures Ids(Kept(RequiredBlocks(policy, input)))
            == (if input.principles.Some? then [STABLE_PRINCIPLES] else [])
               + (if input.taskContract.Some? then [TASK_CONTRACT] else [])
  {
    var ps, cs := PrincipleBlocks(policy, input.principles), ContractBlocks(policy, input.taskContract);
    KeptAppend(ps, cs);
    IdsAppend(Kept(ps), Kept(cs));
    if input.principles.Some? { KeptOne(ps[0]); }
    if input.taskContract.Some? { KeptOne(cs[0]); }
  }

  lemma SelectionLosesNothing(required: seq<Block>, optional: seq<Block>, forbidden: seq<Omitted>, k: nat)
    requires k <= |optional|
    ensures multiset(Ids(Kept(required + optional[..k]))) + multiset(OmittedIds(forbidden + Dropped(optional, k)))
            == multiset(Ids(Kept(required))) + multiset(Ids(Kept(optional))) + multiset(OmittedIds(forbidden))
  {
    KeptAppend(required, optional[..k]);
    IdsAppend(Kept(required), Kept(optional[..k]));
    OmittedAppend(forbidden, Dropped(optional, k));
    KeptOrDropped(optional, k);
  }

  // Every id, counted as often as it was submitted, is kept in a block or omitted.
  lemma NothingIsLost(policy: Policy, input: Input)
    requires WellFormed(input)
    ensures (var required, optional := RequiredBlocks(policy, input), Optional(policy, input);
             var k := Keep(required, optional, policy.stageTokenBudget);
             var forbidden := Collected(policy, input).value.1;
             multiset(Ids(Kept(required + optional[..k]))) + multiset(OmittedIds(forbidden + Dropped(optional, k)))
             == multiset(SubmittedIds(policy, input)))
  {
    var staged := Records(input.stageRecords, StageLayer).value;
    var referenced := Records(input.references, ReferenceLayer).value;
    var evident := Records(input.evidence, EvidenceLayer).value;
    var required, optional := RequiredBlocks(policy, input), Optional(policy, input);
    var forbidden := Collected(policy, input).value.1;
    SelectionLosesNothing(required, optional, forbidden, Keep(required, optional, policy.stageTokenBudget));
    RequiredIds(policy, input);
    RecordsSplit(policy, staged, referenced, evident);
    Regrouped(Ids(Kept(required)), RecordIds(staged), RecordIds(referenced), RecordIds(evident));
  }

  lemma Regrouped(a: seq<Text>, b: seq<Text>, c: seq<Text>, d: seq<Text>)
    ensures multiset(a + b + c + d) == multiset(a) + multiset(b + c + d)
  {
    assert a + b + c + d == a + (b + c + d);
  }

  lemma {:induction false} FirstByIdKeepsIds(entries: seq<Entry>)
    ensures forall id :: id in Ids(FirstById(entries)) <==> id in Ids(entries)
    ensures forall id :: multiset(Ids(FirstById(entries)))[id] == if id in Ids(entries) then 1 else 0
  {
    if entries != [] {
      var init, entry := entries[..|entries| - 1], entries[|entries| - 1];
      FirstByIdKeepsIds(init);
      assert Ids(entries) == Ids(init) + [entry.id];
      if entry.id !in Ids(FirstById(init)) {
        assert Ids(FirstById(entries)) == Ids(FirstById(init)) + [entry.id];
      }
    }
  }

  ghost predicate DistinctIds(ids: seq<Text>) {
    forall id :: id in ids ==> multiset(ids)[id] == 1
  }

  // The receipt: included ids are the ids of the kept blocks, each once; every
  // submitted id is included or omitted, nothing else is, and when the submitted
  // ids are distinct each of them is in exactly one of the two.
  lemma ReceiptAccountsForEverything(policy: Policy, input: Input)
    requires WellFormed(input) && Built(policy, input).Ok?
    ensures (var required, optional, context := RequiredBlocks(policy, input), Optional(policy, input), Built(policy, input).value;
             var k := Keep(required, optional, policy.stageTokenBudget);
             var included, omitted, submitted := Ids(context.included), OmittedIds(context.omitted), SubmittedIds(policy, input);
             && context.promptBlock == Prompt(required + optional[..k])
             && DistinctIds(included)
             && (forall id :: id in included <==> id in Ids(Kept(required + optional[..k])))
             && (forall id :: id in submitted <==> id in included || id in omitted)
             && (DistinctIds(submitted) ==> multiset(included) + multiset(omitted) == multiset(submitted)))
  {
    var required, optional := RequiredBlocks(policy, input), Optional(policy, input);
    var k := Keep(required, optional, policy.stageTokenBudget);
    var kept := Kept(required + optional[..k]);
    var omitted := Collected(policy, input).value.1 + Dropped(optional, k);
    NothingIsLost(policy, input);
    FirstByIdKeepsIds(kept);
    MembersOfSum(Ids(kept), OmittedIds(omitted), SubmittedIds(policy, input));
    if DistinctIds(SubmittedIds(policy, input)) {
      OnceEach(Ids(kept), Ids(FirstById(kept)), OmittedIds(omitted), SubmittedIds(policy, input));
    }
  }

  lemma MembersOfSum(left: seq<Text>, right: seq<Text>, whole: seq<Text>)
    requires multiset(left) + multiset(right) == multiset(whole)
    ensures forall id :: id in whole <==> id in left || id in right
  {
    forall id ensures id in whole <==> id in left || id in right {
      assert id in multiset(whole) <==> id in multiset(left) || id in multiset(right);
    }
  }

  lemma OnceEach(kept: seq<Text>, included: seq<Text>, omitted: seq<Text>, submitted: seq<Text>)
    requires multiset(kept) + multiset(omitted) == multiset(submitted) && DistinctIds(submitted)
    requires forall id :: multiset(included)[id] == if id in kept then 1 else 0
    ensures multiset(included) + multiset(omitted) == multiset(submitted)
  {
    MembersOfSum(kept, omitted, submitted);
    forall id ensures multiset(included)[id] == multiset(kept)[id] {
      if id in kept {
        assert id in multiset(kept) && multiset(submitted)[id] == multiset(kept)[id] + multiset(omitted)[id];
      }
    }
    assert multiset(included) == multiset(kept);
  }
}
