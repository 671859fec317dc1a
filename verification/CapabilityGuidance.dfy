/** Compaction of capability guidance: an ordered map, three merges and one pass for duplicates. */
module CapabilityGuidance {
  import opened Prelude
  import opened JsText
  import opened OrderedMap
  import opened Sorting

  datatype Aspects = Aspects(contract: bool, implementation: bool, complexity: bool, security: bool)

  datatype Entry = Entry(id: Text, priority: int, guidance: Option<Text>, activation: Text, aspects: Option<Aspects>)

  datatype Reason = SupersededByFocusedTests | SupersededByDebugging | MergedIntoReview | DuplicateGuidance

  datatype Compacted = Compacted(id: Text, reason: Reason, activation: Text)

  const TEST_DRIVEN: Text := Ascii("kernel-test-driven-development")
  const DEBUGGING: Text := Ascii("kernel-systematic-debugging")
  const DIAGNOSING: Text := Ascii("kernel-diagnosing-bugs")
  const REVIEW_SPEC: Text := Ascii("kernel-review-spec")
  const REVIEW_STANDARDS: Text := Ascii("kernel-review-standards")
  const REVIEW_COMPLEXITY: Text := Ascii("kernel-review-complexity")
  const REVIEWS: seq<Text> := [REVIEW_SPEC, REVIEW_STANDARDS, REVIEW_COMPLEXITY]

  const AND: Text := Ascii(" and ")
  const COMMA_AND: Text := Ascii(", and ")
  const COMMA_SPACE: Text := Ascii(", ")
  const CONTRACT: Text := Ascii("contract")
  const IMPLEMENTATION: Text := Ascii("implementation risks")
  const COMPLEXITY: Text := Ascii("unnecessary complexity")
  const REVIEW_OPENING: Text := Ascii("Review the changed ")
  const REVIEW_CLOSING: Text := Ascii(" relevant to this work.")

  // ---- The review text ----

  function Commas(parts: seq<Text>): Text {
    if parts == [] then []
    else if |parts| == 1 then parts[0]
    else parts[0] + COMMA_SPACE + Commas(parts[1..])
  }

  function JoinPhrases(parts: seq<Text>): Text {
    if |parts| <= 1 then Commas(parts)
    else if |parts| == 2 then parts[0] + AND + parts[1]
    else Commas(parts[..|parts| - 1]) + COMMA_AND + parts[|parts| - 1]
  }

  function ReviewParts(aspects: Aspects): seq<Text> {
    (if aspects.contract then [CONTRACT] else [])
    + (if aspects.implementation then [IMPLEMENTATION] else [])
    + if aspects.complexity then [COMPLEXITY] else []
  }

  function ReviewGuidanceText(aspects: Option<Aspects>): Option<Text> {
    if aspects.None? || ReviewParts(aspects.value) == [] then None
    else Some(REVIEW_OPENING + JoinPhrases(ReviewParts(aspects.value)) + REVIEW_CLOSING)
  }

  ghost predicate NamesAt(text: Text, before: Text, phrase: Text, after: Text) {
    text == before + phrase + after
  }

  ghost predicate Names(text: Text, phrase: Text) {
    exists before, after :: NamesAt(text, before, phrase, after)
  }

  lemma NamedIn(before: Text, text: Text, after: Text, phrase: Text)
    requires Names(text, phrase)
    ensures Names(before + text + after, phrase)
  {
    var b, a :| NamesAt(text, b, phrase, a);
    assert before + (b + phrase + a) + after == (before + b) + phrase + (a + after);
    assert NamesAt(before + text + after, before + b, phrase, a + after);
  }

  lemma NamesItself(phrase: Text)
    ensures Names(phrase, phrase)
  {
    assert phrase == [] + phrase + [];
    assert NamesAt(phrase, [], phrase, []);
  }

  // Either side of a joint keeps the phrases it names.
  lemma NamedBeside(left: Text, link: Text, right: Text, phrase: Text)
    requires Names(left, phrase) || Names(right, phrase)
    ensures Names(left + link + right, phrase)
  {
    if Names(left, phrase) {
      NamedIn([], left, link + right, phrase);
      assert [] + left + (link + right) == left + link + right;
    } else {
      NamedIn(left + link, right, [], phrase);
      assert left + link + right + [] == left + link + right;
    }
  }

  lemma {:induction false} CommasName(parts: seq<Text>, phrase: Text)
    requires phrase in parts
    ensures Names(Commas(parts), phrase)
  {
    NamesItself(phrase);
    if |parts| > 1 {
      assert parts == [parts[0]] + parts[1..];
      if phrase != parts[0] { CommasName(parts[1..], phrase); }
      NamedBeside(parts[0], COMMA_SPACE, Commas(parts[1..]), phrase);
    }
  }

  lemma JoinPhrasesName(parts: seq<Text>, phrase: Text)
    requires phrase in parts
    ensures Names(JoinPhrases(parts), phrase)
  {
    NamesItself(phrase);
    var n := |parts| - 1;
    assert parts == parts[..n] + [parts[n]];
    if n == 0 {
      CommasName(parts, phrase);
    } else if n == 1 {
      NamedBeside(parts[0], AND, parts[1], phrase);
    } else {
      if phrase != parts[n] { CommasName(parts[..n], phrase); }
      NamedBeside(Commas(parts[..n]), COMMA_AND, parts[n], phrase);
    }
  }

  // The text names the phrase of every active aspect.
  lemma ReviewTextNamesAspects(aspects: Aspects)
    ensures ReviewGuidanceText(Some(aspects)).Some? <==> aspects.contract || aspects.implementation || aspects.complexity
    ensures (var text := ReviewGuidanceText(Some(aspects));
             text.Some? ==>
               && (aspects.contract ==> Names(text.value, CONTRACT))
               && (aspects.implementation ==> Names(text.value, IMPLEMENTATION))
               && (aspects.complexity ==> Names(text.value, COMPLEXITY)))
  {
    var parts := ReviewParts(aspects);
    forall phrase | phrase in parts ensures Names(REVIEW_OPENING + JoinPhrases(parts) + REVIEW_CLOSING, phrase) {
      JoinPhrasesName(parts, phrase);
      NamedIn(REVIEW_OPENING, JoinPhrases(parts), REVIEW_CLOSING, phrase);
    }
    assert aspects.contract ==> CONTRACT in parts;
    assert aspects.implementation ==> IMPLEMENTATION in parts;
    assert aspects.complexity ==> COMPLEXITY in parts;
  }

  // ---- The active map ----

  function Ids(entries: seq<Entry>): seq<Text> {
    seq(|entries|, i requires 0 <= i < |entries| => entries[i].id)
  }

  function CompactedIds(entries: seq<Compacted>): seq<Text> {
    seq(|entries|, i requires 0 <= i < |entries| => entries[i].id)
  }

  // new Map(selected.map((entry) => [entry.id, entry]))
  function Active(selected: seq<Entry>): Entries<Text, Entry> {
    if selected == [] then []
    else
      var last := selected[|selected| - 1];
      Set(Active(selected[..|selected| - 1]), last.id, last)
  }

  ghost predicate Keyed(active: Entries<Text, Entry>) {
    forall e :: e in active ==> e.0 == e.1.id
  }

  // Of several entries with one id the last one counts.
  function LastWith(selected: seq<Entry>, id: Text): (e: Option<Entry>)
    ensures e.Some? ==> e.value in selected && e.value.id == id
  {
    if selected == [] then None
    else
      var last := selected[|selected| - 1];
      if last.id == id then Some(last) else LastWith(selected[..|selected| - 1], id)
  }

  // Each key is its entry's id, and each entry is the one that counts for it.
  ghost predicate From(selected: seq<Entry>, active: Entries<Text, Entry>) {
    Keyed(active) && forall e :: e in active ==> LastWith(selected, e.0) == Some(e.1)
  }

  ghost predicate Once(keys: seq<Text>) {
    forall key :: multiset(keys)[key] <= 1
  }

  lemma {:induction false} ActiveKeys(selected: seq<Entry>)
    ensures Keys(Active(selected)) == Dedupe(Ids(selected))
  {
    if selected != [] {
      var init, last := selected[..|selected| - 1], selected[|selected| - 1];
      ActiveKeys(init);
      SetKeys(Active(init), last.id, last);
      assert Ids(selected)[..|init|] == Ids(init);
    }
  }

  lemma {:induction false} ActiveGets(selected: seq<Entry>, id: Text)
    ensures Get(Active(selected), id) == LastWith(selected, id)
  {
    if selected != [] {
      var init, last := selected[..|selected| - 1], selected[|selected| - 1];
      ActiveGets(init, id);
      GetSet(Active(init), last.id, last, id);
    }
  }

  lemma {:induction false} GetFinds(m: Entries<Text, Entry>, e: (Text, Entry))
    requires e in m && Once(Keys(m))
    ensures Get(m, e.0) == Some(e.1)
  {
    if m[0] != e {
      var rest := m[1..];
      assert m == [m[0]] + rest && e in rest;
      assert Keys(m) == [m[0].0] + Keys(rest);
      assert multiset(Keys(m)) == multiset{m[0].0} + multiset(Keys(rest));
      KeysAt(rest);
      var i :| 0 <= i < |rest| && rest[i] == e;
      assert e.0 in multiset(Keys(rest)) by { assert Keys(rest)[i] == e.0; }
      assert multiset(Keys(m))[e.0] <= 1;
      forall k ensures multiset(Keys(rest))[k] <= 1 { assert multiset(Keys(m))[k] <= 1; }
      GetFinds(rest, e);
    }
  }

  lemma {:induction false} ActiveIsKeyed(selected: seq<Entry>)
    ensures Keyed(Active(selected))
  {
    if selected != [] {
      var init, last := selected[..|selected| - 1], selected[|selected| - 1];
      ActiveIsKeyed(init);
      SetKeys(Active(init), last.id, last);
    }
  }

  lemma ActiveIsFrom(selected: seq<Entry>)
    requires Once(Keys(Active(selected)))
    ensures From(selected, Active(selected))
  {
    ActiveIsKeyed(selected);
    forall e | e in Active(selected) ensures LastWith(selected, e.0) == Some(e.1) {
      ActiveGets(selected, e.0);
      GetFinds(Active(selected), e);
    }
  }

  lemma {:induction false} WithoutOnce(keys: seq<Text>, key: Text)
    requires Once(keys)
    ensures multiset(Without(keys, key)) == multiset(keys) - multiset{key}
    ensures Once(Without(keys, key))
  {
    if keys != [] {
      var rest := keys[1..];
      assert keys == [keys[0]] + rest;
      assert multiset(keys) == multiset{keys[0]} + multiset(rest);
      forall k ensures multiset(rest)[k] <= 1 { assert multiset(keys)[k] <= 1; }
      WithoutOnce(rest, key);
      if keys[0] == key { assert multiset(keys)[key] <= 1; }
    }
  }

  lemma KeyIffHas(active: Entries<Text, Entry>, id: Text)
    ensures id in Keys(active) <==> Has(active, id)
  {
    KeysAt(active);
  }

  lemma {:induction false} WithoutAbsent(keys: seq<Text>, key: Text)
    requires key !in keys
    ensures Without(keys, key) == keys
  {
    if keys != [] { WithoutAbsent(keys[1..], key); }
  }

  // ---- The merges ----

  datatype State = State(active: Entries<Text, Entry>, compacted: seq<Compacted>)

  // drop: a present capability leaves the map and is recorded.
  function Drop(state: State, id: Text, reason: Reason): State {
    match Get(state.active, id)
    case None => state
    case Some(entry) =>
      State(Delete(state.active, id), state.compacted + [Compacted(id, reason, entry.activation)])
  }

  function ActiveReviews(active: Entries<Text, Entry>, reviews: seq<Text>): seq<Text> {
    if reviews == [] then []
    else (if Has(active, reviews[0]) then [reviews[0]] else []) + ActiveReviews(active, reviews[1..])
  }

  function DropAll(state: State, ids: seq<Text>, reason: Reason): State {
    if ids == [] then state else Drop(DropAll(state, ids[..|ids| - 1], reason), ids[|ids| - 1], reason)
  }

  function Superseded(selected: seq<Entry>): State {
    var state := Drop(State(Active(selected), []), TEST_DRIVEN, SupersededByFocusedTests);
    if Has(state.active, DEBUGGING) then Drop(state, DIAGNOSING, SupersededByDebugging) else state
  }

  function Merged(selected: seq<Entry>): State {
    var state := Superseded(selected);
    var reviews := ActiveReviews(state.active, REVIEWS);
    if reviews == [] then state else DropAll(state, reviews[1..], MergedIntoReview)
  }

  function Carrier(selected: seq<Entry>): Option<Text> {
    var reviews := ActiveReviews(Superseded(selected).active, REVIEWS);
    if reviews == [] then None else Some(reviews[0])
  }

  function ReviewAspects(selected: seq<Entry>, security: bool): Option<Aspects> {
    var active := Superseded(selected).active;
    if Carrier(selected).None? then None
    else Some(Aspects(Has(active, REVIEW_SPEC), Has(active, REVIEW_STANDARDS), Has(active, REVIEW_COMPLEXITY), security))
  }

  ghost function Bag(state: State): multiset<Text> {
    multiset(Keys(state.active)) + multiset(CompactedIds(state.compacted))
  }

  // Every id is in the map or recorded, once in all.
  ghost predicate Conserves(selected: seq<Entry>, state: State) {
    && From(selected, state.active) && Once(Keys(state.active))
    && Bag(state) == multiset(Dedupe(Ids(selected)))
  }

  lemma OneMoreId(compacted: seq<Compacted>, c: Compacted)
    ensures multiset(CompactedIds(compacted + [c])) == multiset(CompactedIds(compacted)) + multiset{c.id}
  {
    assert CompactedIds(compacted + [c]) == CompactedIds(compacted) + [c.id];
  }

  lemma BagMove(left: multiset<Text>, right: multiset<Text>, id: Text)
    requires id in left
    ensures (left - multiset{id}) + (right + multiset{id}) == left + right
  {
  }

  lemma DropKeepsBag(state: State, id: Text, reason: Reason)
    requires Once(Keys(state.active)) && Get(state.active, id).Some?
    ensures Bag(Drop(state, id, reason)) == Bag(state) && Once(Keys(Drop(state, id, reason).active))
  {
    var keys, c := Keys(state.active), Compacted(id, reason, Get(state.active, id).value.activation);
    KeyIffHas(state.active, id);
    DeleteKeys(state.active, id);
    WithoutOnce(keys, id);
    OneMoreId(state.compacted, c);
    assert id in multiset(keys);
    BagMove(multiset(keys), multiset(CompactedIds(state.compacted)), id);
  }

  lemma AbsentKey(active: Entries<Text, Entry>, id: Text)
    requires !Has(active, id)
    ensures Without(Keys(active), id) == Keys(active) && forall e :: e in active ==> e.0 != id
  {
    KeyIffHas(active, id);
    KeysAt(active);
    WithoutAbsent(Keys(active), id);
    forall e | e in active ensures e.0 != id {
      var i :| 0 <= i < |active| && active[i] == e;
      assert Keys(active)[i] == e.0;
    }
  }

  lemma DeleteStaysFrom(selected: seq<Entry>, active: Entries<Text, Entry>, id: Text)
    requires From(selected, active)
    ensures From(selected, Delete(active, id))
  {
    DeleteKeys(active, id);
  }

  lemma DropConserves(selected: seq<Entry>, state: State, id: Text, reason: Reason)
    requires Conserves(selected, state)
    ensures Conserves(selected, Drop(state, id, reason))
    ensures Keys(Drop(state, id, reason).active) == Without(Keys(state.active), id)
    ensures forall e :: e in Drop(state, id, reason).active <==> e in state.active && e.0 != id
  {
    if Get(state.active, id).None? {
      AbsentKey(state.active, id);
    } else {
      DropKeepsBag(state, id, reason);
      DeleteKeys(state.active, id);
      DeleteStaysFrom(selected, state.active, id);
    }
  }

  lemma StartConserves(selected: seq<Entry>)
    ensures Conserves(selected, State(Active(selected), []))
  {
    ActiveKeys(selected);
    DedupeKeepsOneOfEach(Ids(selected));
    ActiveIsFrom(selected);
    assert CompactedIds([]) == [];
  }

  lemma {:induction false} DropAllConserves(selected: seq<Entry>, state: State, ids: seq<Text>, reason: Reason)
    requires Conserves(selected, state)
    ensures Conserves(selected, DropAll(state, ids, reason))
    ensures forall e :: e in DropAll(state, ids, reason).active <==> e in state.active && e.0 !in ids
  {
    if ids != [] {
      var init := ids[..|ids| - 1];
      assert ids == init + [ids[|ids| - 1]];
      DropAllConserves(selected, state, init, reason);
      DropConserves(selected, DropAll(state, init, reason), ids[|ids| - 1], reason);
    }
  }

  // ---- The pass for duplicates ----

  datatype View = View(visible: seq<Entry>, duplicates: seq<Compacted>)

  function GuidanceOf(carrier: Option<Text>, aspects: Option<Aspects>, entry: Entry): Option<Text> {
    if carrier == Some(entry.id) then ReviewGuidanceText(aspects) else entry.guidance
  }

  function Shown(carrier: Option<Text>, aspects: Option<Aspects>, entry: Entry): Entry {
    if carrier == Some(entry.id) then entry.(guidance := ReviewGuidanceText(aspects), aspects := aspects) else entry
  }

  predicate Seen(visible: seq<Entry>, guidance: Option<Text>) {
    exists i :: 0 <= i < |visible| && visible[i].guidance == guidance
  }

  // The first entry with a guidance text is shown, later ones are recorded.
  function Pass(carrier: Option<Text>, aspects: Option<Aspects>, active: Entries<Text, Entry>): View {
    if active == [] then View([], [])
    else
      var before, entry := Pass(carrier, aspects, active[..|active| - 1]), active[|active| - 1].1;
      if Seen(before.visible, GuidanceOf(carrier, aspects, entry)) then
        before.(duplicates := before.duplicates + [Compacted(entry.id, DuplicateGuidance, entry.activation)])
      else before.(visible := before.visible + [Shown(carrier, aspects, entry)])
  }

  ghost predicate DistinctGuidance(visible: seq<Entry>) {
    forall i, j :: 0 <= i < j < |visible| ==> visible[i].guidance != visible[j].guidance
  }

  // Why a duplicate went: an entry that is shown has its guidance.
  ghost predicate Duplicated(carrier: Option<Text>, aspects: Option<Aspects>, active: Entries<Text, Entry>,
                             visible: seq<Entry>, d: Compacted)
  {
    d.reason == DuplicateGuidance
    && exists e :: e in active && e.1.id == d.id && e.1.activation == d.activation && Seen(visible, GuidanceOf(carrier, aspects, e.1))
  }

  lemma OneMoreEntry(entries: seq<Entry>, e: Entry)
    ensures multiset(Ids(entries + [e])) == multiset(Ids(entries)) + multiset{e.id}
  {
    assert Ids(entries + [e]) == Ids(entries) + [e.id];
  }

  lemma {:induction false} KeysAppend(active: Entries<Text, Entry>, e: (Text, Entry))
    ensures Keys(active + [e]) == Keys(active) + [e.0]
  {
    if active == [] {
      assert active + [e] == [e];
    } else {
      KeysAppend(active[1..], e);
      assert (active + [e])[1..] == active[1..] + [e];
    }
  }

  ghost function Accounts(view: View): multiset<Text> {
    multiset(Ids(view.visible)) + multiset(CompactedIds(view.duplicates))
  }

  lemma ShowingAccounts(view: View, shown: Entry)
    ensures Accounts(view.(visible := view.visible + [shown])) == Accounts(view) + multiset{shown.id}
  {
    OneMoreEntry(view.visible, shown);
  }

  lemma RecordingAccounts(view: View, duplicate: Compacted)
    ensures Accounts(view.(duplicates := view.duplicates + [duplicate])) == Accounts(view) + multiset{duplicate.id}
  {
    OneMoreId(view.duplicates, duplicate);
  }

  // One more entry is either shown or recorded.
  lemma PassStep(carrier: Option<Text>, aspects: Option<Aspects>, init: Entries<Text, Entry>, last: (Text, Entry))
    requires last.0 == last.1.id
    ensures Accounts(Pass(carrier, aspects, init + [last])) == Accounts(Pass(carrier, aspects, init)) + multiset{last.0}
  {
    var active := init + [last];
    assert active[..|active| - 1] == init && active[|active| - 1] == last;
    var before, entry := Pass(carrier, aspects, init), last.1;
    ShowingAccounts(before, Shown(carrier, aspects, entry));
    RecordingAccounts(before, Compacted(entry.id, DuplicateGuidance, entry.activation));
  }

  lemma {:induction false} PassConserves(carrier: Option<Text>, aspects: Option<Aspects>, active: Entries<Text, Entry>)
    requires Keyed(active)
    ensures Accounts(Pass(carrier, aspects, active)) == multiset(Keys(active))
  {
    if active != [] {
      var init, last := active[..|active| - 1], active[|active| - 1];
      assert active == init + [last] && last in active;
      PassConserves(carrier, aspects, init);
      KeysAppend(init, last);
      PassStep(carrier, aspects, init, last);
    }
  }

  lemma {:induction false} PassShows(carrier: Option<Text>, aspects: Option<Aspects>, active: Entries<Text, Entry>)
    ensures (var view := Pass(carrier, aspects, active);
             && DistinctGuidance(view.visible)
             && (forall v :: v in view.visible ==> exists e :: e in active && v == Shown(carrier, aspects, e.1))
             && (forall d :: d in view.duplicates ==> Duplicated(carrier, aspects, active, view.visible, d)))
  {
    if active != [] {
      var init, last := active[..|active| - 1], active[|active| - 1];
      assert active == init + [last];
      PassShows(carrier, aspects, init);
      var before, after := Pass(carrier, aspects, init), Pass(carrier, aspects, active);
      forall d | d in after.duplicates ensures Duplicated(carrier, aspects, active, after.visible, d) {
        if d in before.duplicates {
          var e :| e in init && e.1.id == d.id && e.1.activation == d.activation && Seen(before.visible, GuidanceOf(carrier, aspects, e.1));
          StillSeen(before.visible, after.visible, GuidanceOf(carrier, aspects, e.1));
          assert e in active;
        } else {
          assert last in active && last.1.id == d.id && last.1.activation == d.activation;
        }
      }
      forall v | v in after.visible ensures exists e :: e in active && v == Shown(carrier, aspects, e.1) {
        if v in before.visible {
          var e :| e in init && v == Shown(carrier, aspects, e.1);
          assert e in active;
        } else {
          assert last in active;
        }
      }
    }
  }

  lemma StillSeen(before: seq<Entry>, after: seq<Entry>, guidance: Option<Text>)
    requires before <= after && Seen(before, guidance)
    ensures Seen(after, guidance)
  {
    var i :| 0 <= i < |before| && before[i].guidance == guidance;
    assert after[i] == before[i];
  }

  // ---- The whole compaction ----

  function EntryLe(idLe: (Text, Text) -> bool): (Entry, Entry) -> bool {
    (left: Entry, right: Entry) => left.priority < right.priority || (left.priority == right.priority && idLe(left.id, right.id))
  }

  function CompactedLe(idLe: (Text, Text) -> bool): (Compacted, Compacted) -> bool {
    (left: Compacted, right: Compacted) => idLe(left.id, right.id)
  }

  function Viewed(selected: seq<Entry>, security: bool): View {
    Pass(Carrier(selected), ReviewAspects(selected, security), Merged(selected).active)
  }

  function Selected(selected: seq<Entry>, security: bool, idLe: (Text, Text) -> bool): seq<Entry> {
    Sort(Viewed(selected, security).visible, EntryLe(idLe))
  }

  function CompactedFrom(selected: seq<Entry>, security: bool, idLe: (Text, Text) -> bool): seq<Compacted> {
    Sort(Merged(selected).compacted + Viewed(selected, security).duplicates, CompactedLe(idLe))
  }

  method CompactCapabilityGuidance(selected: seq<Entry>, security: bool, idLe: (Text, Text) -> bool)
    returns (selected': seq<Entry>, compacted: seq<Compacted>)
    ensures selected' == Selected(selected, security, idLe)
    ensures compacted == CompactedFrom(selected, security, idLe)
  {
    var active: Entries<Text, Entry> := [];
    for i := 0 to |selected|
      invariant active == Active(selected[..i])
    {
      assert selected[..i + 1][..i] == selected[..i];
      active := Set(active, selected[i].id, selected[i]);
    }
    assert selected[..|selected|] == selected;
    var state := Drop(State(active, []), TEST_DRIVEN, SupersededByFocusedTests);
    if Has(state.active, DEBUGGING) { state := Drop(state, DIAGNOSING, SupersededByDebugging); }

    var reviewActive := ActiveReviews(state.active, REVIEWS);
    var reviewCarrier := if |reviewActive| == 0 then None else Some(reviewActive[0]);
    var reviewAspects :=
      if reviewCarrier.None? then None
      else Some(Aspects(Has(state.active, REVIEW_SPEC), Has(state.active, REVIEW_STANDARDS),
                        Has(state.active, REVIEW_COMPLEXITY), security));
    var merged := if |reviewActive| == 0 then [] else reviewActive[1..];
    ghost var superseded := state;
    for i := 0 to |merged|
      invariant state == DropAll(superseded, merged[..i], MergedIntoReview)
    {
      assert merged[..i + 1][..i] == merged[..i];
      state := Drop(state, merged[i], MergedIntoReview);
    }
    assert merged[..|merged|] == merged;
    var visible, duplicates := ShowOnce(reviewCarrier, reviewAspects, state.active);
    return Sort(visible, EntryLe(idLe)), Sort(state.compacted + duplicates, CompactedLe(idLe));
  }

  method ShowOnce(reviewCarrier: Option<Text>, reviewAspects: Option<Aspects>, active: Entries<Text, Entry>)
    returns (visible: seq<Entry>, duplicates: seq<Compacted>)
    ensures View(visible, duplicates) == Pass(reviewCarrier, reviewAspects, active)
  {
    visible, duplicates := [], [];
    var seenGuidance: set<Option<Text>> := {};
    for i := 0 to |active|
      invariant View(visible, duplicates) == Pass(reviewCarrier, reviewAspects, active[..i])
      invariant forall g :: g in seenGuidance <==> Seen(visible, g)
    {
      assert active[..i + 1][..i] == active[..i];
      var entry := active[i].1;
      var guidance := GuidanceOf(reviewCarrier, reviewAspects, entry);
      if guidance in seenGuidance {
        duplicates := duplicates + [Compacted(entry.id, DuplicateGuidance, entry.activation)];
      } else {
        SeenOneMore(visible, Shown(reviewCarrier, reviewAspects, entry));
        seenGuidance := seenGuidance + {guidance};
        visible := visible + [Shown(reviewCarrier, reviewAspects, entry)];
      }
    }
    assert active[..|active|] == active;
  }

  lemma SeenOneMore(visible: seq<Entry>, e: Entry)
    ensures forall g :: Seen(visible + [e], g) <==> Seen(visible, g) || g == e.guidance
  {
    forall g ensures Seen(visible + [e], g) <==> Seen(visible, g) || g == e.guidance {
      if Seen(visible, g) { StillSeen(visible, visible + [e], g); }
      assert (visible + [e])[|visible|] == e;
    }
  }

  // ---- What compaction keeps ----

  lemma IdsDiffer()
    ensures TEST_DRIVEN !in REVIEWS && DIAGNOSING !in REVIEWS && TEST_DRIVEN != DEBUGGING
    ensures REVIEW_SPEC != REVIEW_STANDARDS && REVIEW_SPEC != REVIEW_COMPLEXITY && REVIEW_STANDARDS != REVIEW_COMPLEXITY
  {
    assert |TEST_DRIVEN| == 30 && |DEBUGGING| == 27 && |DIAGNOSING| == 22;
    assert |REVIEW_SPEC| == 18 && |REVIEW_STANDARDS| == 23 && |REVIEW_COMPLEXITY| == 24;
  }

  lemma HasAfterDrop(selected: seq<Entry>, state: State, id: Text, reason: Reason)
    requires Conserves(selected, state)
    ensures Conserves(selected, Drop(state, id, reason))
    ensures forall other :: Has(Drop(state, id, reason).active, other) <==> Has(state.active, other) && other != id
  {
    DropConserves(selected, state, id, reason);
    WithoutMembers(Keys(state.active), id);
    forall other ensures Has(Drop(state, id, reason).active, other) <==> Has(state.active, other) && other != id {
      KeyIffHas(state.active, other);
      KeyIffHas(Drop(state, id, reason).active, other);
    }
  }

  lemma StartHas(selected: seq<Entry>)
    ensures forall id :: Has(Active(selected), id) <==> id in Ids(selected)
  {
    ActiveKeys(selected);
    DedupeKeepsOneOfEach(Ids(selected));
    forall id ensures Has(Active(selected), id) <==> id in Ids(selected) {
      KeyIffHas(Active(selected), id);
    }
  }

  // After the first two merges: what is left of the input.
  predicate Outlives(selected: seq<Entry>, id: Text) {
    id in Ids(selected) && id != TEST_DRIVEN && (id == DIAGNOSING ==> DEBUGGING !in Ids(selected))
  }

  lemma SupersededKeeps(selected: seq<Entry>)
    ensures Conserves(selected, Superseded(selected))
    ensures forall id :: Has(Superseded(selected).active, id) <==> Outlives(selected, id)
  {
    var start := State(Active(selected), []);
    StartConserves(selected);
    StartHas(selected);
    HasAfterDrop(selected, start, TEST_DRIVEN, SupersededByFocusedTests);
    var state := Drop(start, TEST_DRIVEN, SupersededByFocusedTests);
    HasAfterDrop(selected, state, DIAGNOSING, SupersededByDebugging);
    IdsDiffer();
  }

  lemma {:induction false} ActiveReviewsAre(active: Entries<Text, Entry>, reviews: seq<Text>)
    ensures forall id :: id in ActiveReviews(active, reviews) <==> id in reviews && Has(active, id)
    ensures ActiveReviews(active, reviews) != [] ==> ActiveReviews(active, reviews)[0] in reviews
  {
    if reviews != [] {
      ActiveReviewsAre(active, reviews[1..]);
      assert reviews == [reviews[0]] + reviews[1..];
    }
  }

  lemma EntriesHave(active: Entries<Text, Entry>)
    ensures forall e :: e in active ==> Has(active, e.0)
  {
    forall e | e in active ensures Has(active, e.0) {
      var i :| 0 <= i < |active| && active[i] == e;
      assert active[i].0 == e.0;
    }
  }

  // The carrier is the first review asked for; of the reviews only it stays.
  lemma MergedKeeps(selected: seq<Entry>)
    ensures Conserves(selected, Merged(selected))
    ensures forall e :: e in Merged(selected).active ==> Outlives(selected, e.0)
    ensures forall e :: e in Merged(selected).active && e.0 in REVIEWS ==> Carrier(selected) == Some(e.0)
    ensures Carrier(selected).Some? ==> Carrier(selected).value in REVIEWS
  {
    var state := Superseded(selected);
    SupersededKeeps(selected);
    EntriesHave(state.active);
    ActiveReviewsAre(state.active, REVIEWS);
    ReviewsDrop(selected, state, ActiveReviews(state.active, REVIEWS));
  }

  lemma ReviewsDrop(selected: seq<Entry>, state: State, reviews: seq<Text>)
    requires Conserves(selected, state)
    ensures (var after := if reviews == [] then state else DropAll(state, reviews[1..], MergedIntoReview);
             Conserves(selected, after)
             && forall e :: e in after.active ==> e in state.active && (e.0 in reviews ==> e.0 == reviews[0]))
  {
    if reviews != [] {
      DropAllConserves(selected, state, reviews[1..], MergedIntoReview);
      assert reviews == [reviews[0]] + reviews[1..];
    }
  }

  lemma AspectsAreTheInputs(selected: seq<Entry>, security: bool)
    ensures ReviewAspects(selected, security)
            == if Carrier(selected).None? then None
               else Some(Aspects(REVIEW_SPEC in Ids(selected), REVIEW_STANDARDS in Ids(selected),
                                 REVIEW_COMPLEXITY in Ids(selected), security))
  {
    SupersededKeeps(selected);
    IdsDiffer();
    assert REVIEW_SPEC in REVIEWS && REVIEW_STANDARDS in REVIEWS && REVIEW_COMPLEXITY in REVIEWS;
  }

  lemma Ordered(idLe: (Text, Text) -> bool)
    requires TotalPreorder(idLe)
    ensures TotalPreorder(EntryLe(idLe)) && TotalPreorder(CompactedLe(idLe))
  {
    var entryLe, compactedLe := EntryLe(idLe), CompactedLe(idLe);
    forall x: Entry, y: Entry ensures entryLe(x, y) || entryLe(y, x) {
      assert idLe(x.id, y.id) || idLe(y.id, x.id);
    }
    forall x: Entry, y: Entry, z: Entry | entryLe(x, y) && entryLe(y, z) ensures entryLe(x, z) {
      assert idLe(x.id, y.id) && idLe(y.id, z.id) ==> idLe(x.id, z.id);
    }
    forall x: Compacted, y: Compacted ensures compactedLe(x, y) || compactedLe(y, x) {
      assert idLe(x.id, y.id) || idLe(y.id, x.id);
    }
    forall x: Compacted, y: Compacted, z: Compacted | compactedLe(x, y) && compactedLe(y, z) ensures compactedLe(x, z) {
      assert idLe(x.id, y.id) && idLe(y.id, z.id) ==> idLe(x.id, z.id);
    }
  }

  lemma {:induction false} IdsMapped(entries: seq<Entry>)
    ensures Ids(entries) == Mapped(entries, (e: Entry) => e.id)
  {
    if entries != [] {
      IdsMapped(entries[1..]);
      assert Ids(entries) == [entries[0].id] + Ids(entries[1..]);
    }
  }

  lemma {:induction false} CompactedIdsMapped(entries: seq<Compacted>)
    ensures CompactedIds(entries) == Mapped(entries, (c: Compacted) => c.id)
  {
    if entries != [] {
      CompactedIdsMapped(entries[1..]);
      assert CompactedIds(entries) == [entries[0].id] + CompactedIds(entries[1..]);
    }
  }

  lemma SortKeepsIds(entries: seq<Entry>, le: (Entry, Entry) -> bool)
    ensures multiset(Ids(Sort(entries, le))) == multiset(Ids(entries))
  {
    IdsMapped(entries);
    IdsMapped(Sort(entries, le));
    SortKeepsMapped(entries, le, (e: Entry) => e.id);
  }

  lemma SortKeepsCompactedIds(entries: seq<Compacted>, le: (Compacted, Compacted) -> bool)
    ensures multiset(CompactedIds(Sort(entries, le))) == multiset(CompactedIds(entries))
  {
    CompactedIdsMapped(entries);
    CompactedIdsMapped(Sort(entries, le));
    SortKeepsMapped(entries, le, (c: Compacted) => c.id);
  }

  lemma Rebag(visible: multiset<Text>, duplicates: multiset<Text>, keys: multiset<Text>, compacted: multiset<Text>)
    requires visible + duplicates == keys
    ensures visible + (compacted + duplicates) == keys + compacted
  {
  }

  lemma CompactedIdsAppend(left: seq<Compacted>, right: seq<Compacted>)
    ensures multiset(CompactedIds(left + right)) == multiset(CompactedIds(left)) + multiset(CompactedIds(right))
  {
    assert CompactedIds(left + right) == CompactedIds(left) + CompactedIds(right);
  }

  // Every id of the input, repeated or not, ends exactly once in one of the two lists.
  lemma CompactionConserves(selected: seq<Entry>, security: bool, idLe: (Text, Text) -> bool)
    ensures multiset(Ids(Selected(selected, security, idLe))) + multiset(CompactedIds(CompactedFrom(selected, security, idLe)))
            == multiset(Dedupe(Ids(selected)))
  {
    var view, merged := Viewed(selected, security), Merged(selected);
    MergedKeeps(selected);
    PassConserves(Carrier(selected), ReviewAspects(selected, security), merged.active);
    SortKeepsIds(view.visible, EntryLe(idLe));
    SortKeepsCompactedIds(merged.compacted + view.duplicates, CompactedLe(idLe));
    CompactedIdsAppend(merged.compacted, view.duplicates);
    Rebag(multiset(Ids(view.visible)), multiset(CompactedIds(view.duplicates)), multiset(Keys(merged.active)),
          multiset(CompactedIds(merged.compacted)));
    assert Bag(merged) == multiset(Dedupe(Ids(selected)));
  }

  lemma CompactionSorts(selected: seq<Entry>, security: bool, idLe: (Text, Text) -> bool)
    requires TotalPreorder(idLe)
    ensures Sorted(Selected(selected, security, idLe), EntryLe(idLe))
    ensures Sorted(CompactedFrom(selected, security, idLe), CompactedLe(idLe))
  {
    Ordered(idLe);
    SortSorts(Viewed(selected, security).visible, EntryLe(idLe));
    SortSorts(Merged(selected).compacted + Viewed(selected, security).duplicates, CompactedLe(idLe));
  }

  lemma SelectedAreShown(selected: seq<Entry>, security: bool, idLe: (Text, Text) -> bool)
    requires TotalPreorder(idLe)
    ensures (var carrier, aspects := Carrier(selected), ReviewAspects(selected, security);
             forall v :: v in Selected(selected, security, idLe) ==>
               && v in Viewed(selected, security).visible
               && exists e :: e in Merged(selected).active && v == Shown(carrier, aspects, e.1))
  {
    Ordered(idLe);
    SortSorts(Viewed(selected, security).visible, EntryLe(idLe));
    PassShows(Carrier(selected), ReviewAspects(selected, security), Merged(selected).active);
  }

  lemma OnceApart(ids: seq<Text>, i: nat, j: nat)
    requires i < j < |ids| && multiset(ids)[ids[i]] <= 1
    ensures ids[i] != ids[j]
  {
    assert ids == ids[..j] + [ids[j]] + ids[j + 1..];
    assert ids[i] in ids[..j];
    assert multiset(ids)[ids[i]] == multiset(ids[..j])[ids[i]] + multiset{ids[j]}[ids[i]] + multiset(ids[j + 1..])[ids[i]];
  }

  lemma VisibleOnce(selected: seq<Entry>, security: bool, i: nat, j: nat)
    requires i < j < |Viewed(selected, security).visible|
    ensures Viewed(selected, security).visible[i].id != Viewed(selected, security).visible[j].id
  {
    var visible, keys := Viewed(selected, security).visible, Keys(Merged(selected).active);
    MergedKeeps(selected);
    PassConserves(Carrier(selected), ReviewAspects(selected, security), Merged(selected).active);
    assert multiset(Ids(visible))[visible[i].id] <= multiset(keys)[visible[i].id] <= 1;
    OnceApart(Ids(visible), i, j);
  }

  // No two shown entries share a guidance text, nor an id.
  lemma SelectedGuidanceIsDistinct(selected: seq<Entry>, security: bool, idLe: (Text, Text) -> bool, v: Entry, w: Entry)
    requires TotalPreorder(idLe)
    requires v in Selected(selected, security, idLe) && w in Selected(selected, security, idLe)
    requires v.guidance == w.guidance || v.id == w.id
    ensures v == w
  {
    var visible := Viewed(selected, security).visible;
    SelectedAreShown(selected, security, idLe);
    PassShows(Carrier(selected), ReviewAspects(selected, security), Merged(selected).active);
    var i :| 0 <= i < |visible| && visible[i] == v;
    var j :| 0 <= j < |visible| && visible[j] == w;
    if i < j { VisibleOnce(selected, security, i, j); }
    if j < i { VisibleOnce(selected, security, j, i); }
  }

  lemma ReviewIsActive(selected: seq<Entry>, security: bool, id: Text)
    requires id in REVIEWS && id in Ids(selected) && Carrier(selected).Some?
    ensures ReviewAspects(selected, security)
            == Some(Aspects(REVIEW_SPEC in Ids(selected), REVIEW_STANDARDS in Ids(selected),
                            REVIEW_COMPLEXITY in Ids(selected), security))
    ensures ReviewGuidanceText(ReviewAspects(selected, security)).Some?
  {
    AspectsAreTheInputs(selected, security);
    assert id == REVIEW_SPEC || id == REVIEW_STANDARDS || id == REVIEW_COMPLEXITY;
    ReviewTextNamesAspects(ReviewAspects(selected, security).value);
  }

  // Of the reviews at most one is shown; its text speaks for every review asked for.
  // Any other shown entry is the one that counts for its id, unchanged. What another capability
  // supersedes is never shown.
  lemma SelectedSpeaksForReviews(selected: seq<Entry>, security: bool, idLe: (Text, Text) -> bool, v: Entry)
    requires TotalPreorder(idLe) && v in Selected(selected, security, idLe)
    ensures Outlives(selected, v.id)
    ensures LastWith(selected, v.id).Some?
    ensures v.id !in REVIEWS ==> v == LastWith(selected, v.id).value
    ensures v.id in REVIEWS ==>
              && Carrier(selected) == Some(v.id)
              && v == LastWith(selected, v.id).value.(guidance := v.guidance, aspects := v.aspects)
              && v.aspects == Some(Aspects(REVIEW_SPEC in Ids(selected), REVIEW_STANDARDS in Ids(selected),
                                           REVIEW_COMPLEXITY in Ids(selected), security))
              && v.guidance == ReviewGuidanceText(v.aspects) && v.guidance.Some?
  {
    SelectedAreShown(selected, security, idLe);
    MergedKeeps(selected);
    var e :| e in Merged(selected).active && v == Shown(Carrier(selected), ReviewAspects(selected, security), e.1);
    assert e.0 == e.1.id == v.id;
    if v.id in REVIEWS { ReviewIsActive(selected, security, v.id); }
  }

  lemma AtMostOneReview(selected: seq<Entry>, security: bool, idLe: (Text, Text) -> bool, v: Entry, w: Entry)
    requires TotalPreorder(idLe)
    requires v in Selected(selected, security, idLe) && w in Selected(selected, security, idLe)
    requires v.id in REVIEWS && w.id in REVIEWS
    ensures v == w
  {
    SelectedSpeaksForReviews(selected, security, idLe, v);
    SelectedSpeaksForReviews(selected, security, idLe, w);
    SelectedGuidanceIsDistinct(selected, security, idLe, v, w);
  }

  // ---- Why an entry was compacted ----

  // The record keeps the activation condition of the entry that counts for its id.
  ghost predicate Carries(selected: seq<Entry>, c: Compacted) {
    LastWith(selected, c.id).Some? && c.activation == LastWith(selected, c.id).value.activation
  }

  lemma DropCarries(selected: seq<Entry>, state: State, id: Text, reason: Reason)
    requires Conserves(selected, state) && forall c :: c in state.compacted ==> Carries(selected, c)
    ensures forall c :: c in Drop(state, id, reason).compacted ==> Carries(selected, c)
  {
    var found := Get(state.active, id);
    if found.Some? { assert (id, found.value) in state.active; }
  }

  lemma {:induction false} DropAllCarries(selected: seq<Entry>, state: State, ids: seq<Text>, reason: Reason)
    requires Conserves(selected, state) && forall c :: c in state.compacted ==> Carries(selected, c)
    ensures forall c :: c in DropAll(state, ids, reason).compacted ==> Carries(selected, c)
  {
    if ids != [] {
      var init := ids[..|ids| - 1];
      DropAllCarries(selected, state, init, reason);
      DropAllConserves(selected, state, init, reason);
      DropCarries(selected, DropAll(state, init, reason), ids[|ids| - 1], reason);
    }
  }

  lemma MergedCarries(selected: seq<Entry>)
    ensures forall c :: c in Merged(selected).compacted ==> Carries(selected, c)
  {
    var start := State(Active(selected), []);
    StartConserves(selected);
    DropCarries(selected, start, TEST_DRIVEN, SupersededByFocusedTests);
    HasAfterDrop(selected, start, TEST_DRIVEN, SupersededByFocusedTests);
    DropCarries(selected, Drop(start, TEST_DRIVEN, SupersededByFocusedTests), DIAGNOSING, SupersededByDebugging);
    SupersededKeeps(selected);
    var reviews := ActiveReviews(Superseded(selected).active, REVIEWS);
    if reviews != [] { DropAllCarries(selected, Superseded(selected), reviews[1..], MergedIntoReview); }
  }

  ghost predicate Justified(selected: seq<Entry>, security: bool, idLe: (Text, Text) -> bool, c: Compacted) {
    Carries(selected, c)
    && match c.reason
    case SupersededByFocusedTests => c.id == TEST_DRIVEN
    case SupersededByDebugging => c.id == DIAGNOSING && DEBUGGING in Ids(selected)
    case MergedIntoReview => c.id in REVIEWS && Carrier(selected).Some?
    case DuplicateGuidance =>
      exists e, v :: && LastWith(selected, c.id) == Some(e) && v in Selected(selected, security, idLe)
                     && v.guidance == GuidanceOf(Carrier(selected), ReviewAspects(selected, security), e)
  }

  lemma {:induction false} DropAllRecords(state: State, ids: seq<Text>, reason: Reason)
    ensures forall c :: c in DropAll(state, ids, reason).compacted ==>
              c in state.compacted || (c.id in ids && c.reason == reason)
  {
    if ids != [] {
      DropAllRecords(state, ids[..|ids| - 1], reason);
      assert ids == ids[..|ids| - 1] + [ids[|ids| - 1]];
    }
  }

  lemma SupersededRecords(selected: seq<Entry>)
    ensures forall c :: c in Superseded(selected).compacted ==>
              || (c.reason == SupersededByFocusedTests && c.id == TEST_DRIVEN)
              || (c.reason == SupersededByDebugging && c.id == DIAGNOSING && DEBUGGING in Ids(selected))
  {
    StartConserves(selected);
    StartHas(selected);
    HasAfterDrop(selected, State(Active(selected), []), TEST_DRIVEN, SupersededByFocusedTests);
    DropRecords(State(Active(selected), []), TEST_DRIVEN, SupersededByFocusedTests);
    DropRecords(Drop(State(Active(selected), []), TEST_DRIVEN, SupersededByFocusedTests), DIAGNOSING, SupersededByDebugging);
  }

  lemma DropRecords(state: State, id: Text, reason: Reason)
    ensures forall c :: c in Drop(state, id, reason).compacted ==> c in state.compacted || (c.id == id && c.reason == reason)
  {
  }

  lemma MergedRecords(selected: seq<Entry>)
    ensures forall c :: c in Merged(selected).compacted ==>
              || c in Superseded(selected).compacted
              || (c.reason == MergedIntoReview && c.id in REVIEWS && Carrier(selected).Some?)
  {
    var state := Superseded(selected);
    var reviews := ActiveReviews(state.active, REVIEWS);
    ActiveReviewsAre(state.active, REVIEWS);
    if reviews != [] {
      DropAllRecords(state, reviews[1..], MergedIntoReview);
      assert reviews == [reviews[0]] + reviews[1..];
    }
  }

  lemma DuplicateIsJustified(selected: seq<Entry>, security: bool, idLe: (Text, Text) -> bool, c: Compacted)
    requires TotalPreorder(idLe) && c in Viewed(selected, security).duplicates
    ensures Justified(selected, security, idLe, c) && c.reason == DuplicateGuidance
  {
    var visible, active := Viewed(selected, security).visible, Merged(selected).active;
    var carrier, aspects := Carrier(selected), ReviewAspects(selected, security);
    PassShows(carrier, aspects, active);
    MergedKeeps(selected);
    var e :| e in active && e.1.id == c.id && e.1.activation == c.activation && Seen(visible, GuidanceOf(carrier, aspects, e.1));
    var i :| 0 <= i < |visible| && visible[i].guidance == GuidanceOf(carrier, aspects, e.1);
    Ordered(idLe);
    SortSorts(visible, EntryLe(idLe));
    assert visible[i] in Selected(selected, security, idLe) && e.0 == e.1.id;
  }

  // Each reason recorded is a true one.
  lemma CompactionIsJustified(selected: seq<Entry>, security: bool, idLe: (Text, Text) -> bool, c: Compacted)
    requires TotalPreorder(idLe) && c in CompactedFrom(selected, security, idLe)
    ensures Justified(selected, security, idLe, c)
  {
    Ordered(idLe);
    SortSorts(Merged(selected).compacted + Viewed(selected, security).duplicates, CompactedLe(idLe));
    SupersededRecords(selected);
    MergedRecords(selected);
    MergedCarries(selected);
    if c !in Merged(selected).compacted { DuplicateIsJustified(selected, security, idLe, c); }
  }
}
