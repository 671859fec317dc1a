/** Contract revisions: how one is classified, and when the scope can only shrink. */
module ChangeContract {
  import opened Prelude
  import opened JsText
  import opened Sorting
  import ContextReceipt
  import PathScope

  datatype ChangeClass = Clarification | DefectWithinScope | ScopeExtension | Replacement

  // A path field: absent or falsy, one string, or an array of strings.
  datatype PathField = Missing | One(path: Text) | Many(paths: seq<Text>)

  // A changeClass field: null or undefined, a known class, or anything else.
  datatype ClassField = Absent | Known(class_: ChangeClass) | Unknown

  datatype Flags = Flags(changeClass: ClassField, replacement: bool, scopeExtension: bool, defectWithinScope: bool)

  datatype Contract = Contract(
    allowedPaths: PathField,
    forbiddenPaths: PathField,
    own: Flags,
    flags: Flags,
    bug: bool)

  function StringValues(field: PathField): seq<Text> {
    match field
    case Missing => []
    case One(path) => NonEmpty([Slashes(path)])
    case Many(paths) => NonEmpty(seq(|paths|, i requires 0 <= i < |paths| => Slashes(paths[i])))
  }

  predicate Covers(scope: Text, item: Text) {
    || item == scope
    || scope == [STAR]
    || scope == PathScope.DOUBLE_STAR
    || (EndsWith(scope, PathScope.BELOW_ALL) && StartsWith(item, scope[..|scope| - 2]))
    || StartsWith(item, scope + [SLASH])
  }

  predicate CoversOne(declared: seq<Text>, item: Text) {
    exists scope :: scope in declared && Covers(scope, item)
  }

  predicate IsWithin(candidate: seq<Text>, declared: seq<Text>) {
    forall item :: item in candidate ==> CoversOne(declared, item)
  }

  // JSON.stringify of an array of strings is the canonical printer's text for it.
  function Listing(paths: seq<Text>): Text {
    ContextReceipt.Print(StringArray(Sort(Dedupe(paths), TextLe)))
  }

  function StringArray(paths: seq<Text>): ContextReceipt.Json {
    ContextReceipt.JArray(seq(|paths|, i requires 0 <= i < |paths| => ContextReceipt.JString(paths[i])))
  }

  predicate SetEqual(left: PathField, right: PathField) {
    Listing(StringValues(left)) == Listing(StringValues(right))
  }

  function DeclaredPaths(c: Contract): seq<Text> {
    StringValues(c.allowedPaths) + StringValues(c.forbiddenPaths)
  }

  function ExplicitClass(c: Contract): ClassField {
    if c.own.changeClass.Absent? then c.flags.changeClass else c.own.changeClass
  }

  predicate Extends(previous: Contract, next: Contract) {
    var previousPaths, nextPaths := DeclaredPaths(previous), DeclaredPaths(next);
    || next.own.scopeExtension
    || next.flags.scopeExtension
    || (|nextPaths| > 0 && |previousPaths| == 0)
    || !IsWithin(nextPaths, if |previousPaths| > 0 then previousPaths else [PathScope.DOUBLE_STAR])
  }

  function Classify(previous: Option<Contract>, next: Option<Contract>): ChangeClass {
    if previous.None? || next.None? then Clarification
    else
      var prior, revised := previous.value, next.value;
      if ExplicitClass(revised).Known? then ExplicitClass(revised).class_
      else if revised.own.replacement || revised.flags.replacement then Replacement
      else if Extends(prior, revised) then ScopeExtension
      else if revised.own.defectWithinScope || revised.flags.defectWithinScope || revised.bug then DefectWithinScope
      else if SetEqual(prior.allowedPaths, revised.allowedPaths)
              && SetEqual(prior.forbiddenPaths, revised.forbiddenPaths) then Clarification
      else DefectWithinScope
  }

  // ---- Containment is a preorder ----

  lemma CoversSelf(item: Text)
    ensures Covers(item, item)
  {
  }

  // A prefix that ends in a slash lies before the two stars a scope ends in.
  lemma PrefixBeforeStars(prefix: Text, scope: Text)
    requires prefix != [] && prefix[|prefix| - 1] == SLASH && StartsWith(scope, prefix)
    requires EndsWith(scope, PathScope.BELOW_ALL)
    ensures StartsWith(scope[..|scope| - 2], prefix)
  {
    assert scope[|prefix| - 1] == SLASH;
    assert scope[|scope| - 3..][1] == STAR && scope[|scope| - 3..][2] == STAR;
    assert scope[|scope| - 2] == STAR && scope[|scope| - 1] == STAR;
  }

  // What covers a whole subtree covers what lies in it.
  lemma CoversBelow(prefix: Text, scope: Text, item: Text)
    requires prefix != [] && prefix[|prefix| - 1] == SLASH && StartsWith(scope, prefix)
    requires Covers(scope, item) && item != scope && scope != [STAR] && scope != PathScope.DOUBLE_STAR
    ensures StartsWith(item, prefix)
  {
    if EndsWith(scope, PathScope.BELOW_ALL) && StartsWith(item, scope[..|scope| - 2]) {
      PrefixBeforeStars(prefix, scope);
      PrefixTransitive(prefix, scope[..|scope| - 2], item);
    } else {
      PrefixTransitive(prefix, scope + [SLASH], item);
    }
  }

  lemma NoStarBelow(prefix: Text, scope: Text)
    requires prefix != [] && prefix[|prefix| - 1] == SLASH && StartsWith(scope, prefix)
    ensures scope != [STAR] && scope != PathScope.DOUBLE_STAR
  {
    assert scope[|prefix| - 1] == SLASH;
  }

  // A scope's own stars come after the slash its prefix ends with.
  lemma CoversTransitive(outer: Text, scope: Text, item: Text)
    requires Covers(outer, scope) && Covers(scope, item)
    ensures Covers(outer, item)
  {
    if outer != scope && outer != [STAR] && outer != PathScope.DOUBLE_STAR && item != scope {
      if StartsWith(scope, outer + [SLASH]) {
        NoStarBelow(outer + [SLASH], scope);
        CoversBelow(outer + [SLASH], scope, item);
      } else {
        var prefix := outer[..|outer| - 2];
        assert prefix[|prefix| - 1] == outer[|outer| - 3..][0];
        NoStarBelow(prefix, scope);
        CoversBelow(prefix, scope, item);
      }
    }
  }

  lemma PrefixTransitive(a: Text, b: Text, c: Text)
    requires a <= b && b <= c
    ensures a <= c
  {
  }

  lemma WithinIsReflexive(paths: seq<Text>)
    ensures IsWithin(paths, paths)
  {
    forall item | item in paths ensures CoversOne(paths, item) {
      CoversSelf(item);
    }
  }

  lemma WithinIsTransitive(a: seq<Text>, b: seq<Text>, c: seq<Text>)
    requires IsWithin(a, b) && IsWithin(b, c)
    ensures IsWithin(a, c)
  {
    forall item | item in a ensures CoversOne(c, item) {
      var scope :| scope in b && Covers(scope, item);
      var outer :| outer in c && Covers(outer, scope);
      CoversTransitive(outer, scope, item);
    }
  }

  // ---- Set equality ----

  lemma {:induction false} StringArrayMeaning(paths: seq<Text>)
    ensures ContextReceipt.Meanings(StringArray(paths).items)
            == seq(|paths|, i requires 0 <= i < |paths| => ContextReceipt.TString(paths[i]))
  {
    if paths != [] {
      StringArrayMeaning(paths[1..]);
      assert StringArray(paths).items[1..] == StringArray(paths[1..]).items;
    }
  }

  lemma SameArrays(left: seq<Text>, right: seq<Text>)
    requires ContextReceipt.Print(StringArray(left)) == ContextReceipt.Print(StringArray(right))
    ensures left == right
  {
    ContextReceipt.SerialisedIdentifiesMeaning(StringArray(left), StringArray(right));
    StringArrayMeaning(left);
    StringArrayMeaning(right);
    var ls := seq(|left|, i requires 0 <= i < |left| => ContextReceipt.TString(left[i]));
    var rs := seq(|right|, i requires 0 <= i < |right| => ContextReceipt.TString(right[i]));
    assert ls == rs;
    forall i | 0 <= i < |left| ensures left[i] == right[i] {
      assert ls[i] == rs[i];
    }
  }

  lemma ListingsAreSets(a: seq<Text>, b: seq<Text>)
    ensures Listing(a) == Listing(b) <==> forall x :: x in a <==> x in b
  {
    TextOrdered();
    var left, right := Sort(Dedupe(a), TextLe), Sort(Dedupe(b), TextLe);
    DedupeKeepsOneOfEach(a);
    DedupeKeepsOneOfEach(b);
    SortSorts(Dedupe(a), TextLe);
    SortSorts(Dedupe(b), TextLe);
    if forall x :: x in a <==> x in b {
      assert multiset(left) == multiset(right);
      SortedUniquely(left, right, TextLe);
    }
    if Listing(a) == Listing(b) { SameArrays(left, right); }
  }

  // A revision is a clarification of its own accord exactly when it sets no flag
  // and names the same allowed and the same forbidden paths.
  lemma ClarificationKeepsThePaths(previous: Contract, next: Contract)
    requires ExplicitClass(next) != Known(Clarification)
    ensures Classify(Some(previous), Some(next)) == Clarification
            <==> && !ExplicitClass(next).Known?
                 && !next.own.replacement && !next.flags.replacement
                 && !next.own.scopeExtension && !next.flags.scopeExtension
                 && !next.own.defectWithinScope && !next.flags.defectWithinScope && !next.bug
                 && (forall p :: p in StringValues(previous.allowedPaths) <==> p in StringValues(next.allowedPaths))
                 && (forall p :: p in StringValues(previous.forbiddenPaths) <==> p in StringValues(next.forbiddenPaths))
  {
    ListingsAreSets(StringValues(previous.allowedPaths), StringValues(next.allowedPaths));
    ListingsAreSets(StringValues(previous.forbiddenPaths), StringValues(next.forbiddenPaths));
    var before, after := DeclaredPaths(previous), DeclaredPaths(next);
    if (forall p :: p in StringValues(previous.allowedPaths) <==> p in StringValues(next.allowedPaths))
       && (forall p :: p in StringValues(previous.forbiddenPaths) <==> p in StringValues(next.forbiddenPaths))
    {
      assert forall p :: p in before <==> p in after;
      if after != [] {
        assert after[0] in before;
        forall p | p in after ensures CoversOne(before, p) { CoversSelf(p); }
      }
    }
  }

  // The class the revision names, its own before that of its flags.
  predicate Names(c: Contract, class_: ChangeClass) {
    match c.own.changeClass
    case Known(own) => own == class_
    case Absent => c.flags.changeClass == Known(class_)
    case Unknown => false
  }

  predicate NamesAny(c: Contract) {
    c.own.changeClass.Known? || (c.own.changeClass.Absent? && c.flags.changeClass.Known?)
  }

  // Some declared path lies under none declared before.
  predicate DeclaresMore(previous: Contract, next: Contract) {
    exists p :: p in DeclaredPaths(next) && forall q :: q in DeclaredPaths(previous) ==> !Covers(q, p)
  }

  // A named class stands; else a replacement is one by its flags, an extension by its flags or a path
  // declared anew, and what is neither is a defect or a clarification.
  lemma ClassifiedIff(previous: Contract, next: Contract)
    ensures (var class_ := Classify(Some(previous), Some(next));
             var replaced := next.own.replacement || next.flags.replacement;
             var extended := next.own.scopeExtension || next.flags.scopeExtension || DeclaresMore(previous, next);
             && (class_ == Replacement <==> Names(next, Replacement) || (!NamesAny(next) && replaced))
             && (class_ == ScopeExtension <==> Names(next, ScopeExtension) || (!NamesAny(next) && !replaced && extended))
             && (!NamesAny(next) && !replaced && !extended ==> class_ in {Clarification, DefectWithinScope})
             && (NamesAny(next) ==> Names(next, class_)))
  {
    ExtendsIff(previous, next);
  }

  lemma ExtendsIff(previous: Contract, next: Contract)
    ensures Extends(previous, next)
            <==> next.own.scopeExtension || next.flags.scopeExtension || DeclaresMore(previous, next)
  {
    var before, after := DeclaredPaths(previous), DeclaredPaths(next);
    if before == [] && after != [] { assert after[0] in after; }
    if DeclaresMore(previous, next) && before != [] {
      var p :| p in after && forall q :: q in before ==> !Covers(q, p);
      assert !CoversOne(before, p);
    }
  }

  // ---- Chains of revisions ----

  predicate NoExtension(class_: ChangeClass) {
    class_ == Clarification || class_ == DefectWithinScope
  }

  // The revision names its own class, and the name says it extends nothing.
  predicate NamesNoExtension(own: ClassField, flagged: ClassField) {
    var explicit := if own.Absent? then flagged else own;
    explicit.Known? && NoExtension(explicit.class_)
  }

  predicate SpeaksForItself(c: Contract) {
    NamesNoExtension(c.own.changeClass, c.flags.changeClass)
  }

  predicate Accepted(previous: Contract, next: Contract) {
    NoExtension(Classify(Some(previous), Some(next)))
  }

  predicate CoversAll(paths: seq<Text>) {
    [STAR] in paths || PathScope.DOUBLE_STAR in paths
  }

  function Longest(paths: seq<Text>): (n: nat)
    ensures forall p :: p in paths ==> |p| <= n
  {
    if paths == [] then 0
    else
      var rest := Longest(paths[1..]);
      if |paths[0]| > rest then |paths[0]| else rest
  }

  // One segment longer than every declared path lies in none of them but a bare star.
  lemma LongSegmentIsOutside(paths: seq<Text>) returns (item: Text)
    requires !CoversAll(paths)
    ensures item != [] && Slashes(item) == item && !CoversOne(paths, item)
  {
    item := seq(Longest(paths) + 1, i => 0x78);
    forall scope | scope in paths ensures !Covers(scope, item) {
      if EndsWith(scope, PathScope.BELOW_ALL) {
        var prefix := scope[..|scope| - 2];
        assert prefix[|prefix| - 1] == scope[|scope| - 3..][0] == SLASH;
        DiffersAt(item, prefix, |prefix| - 1);
      }
      DiffersAt(item, scope + [SLASH], |scope|);
    }
  }

  lemma DiffersAt(s: Text, prefix: Text, k: nat)
    requires k < |prefix| && (k < |s| ==> s[k] != prefix[k])
    ensures !StartsWith(s, prefix)
  {
  }

  // A revision that declares a longer path and calls itself what it likes.
  lemma SelfNamedWidens(previous: Contract, own: ClassField, flagged: ClassField) returns (next: Contract)
    requires NamesNoExtension(own, flagged) && !CoversAll(DeclaredPaths(previous))
    ensures next.own.changeClass == own && next.flags.changeClass == flagged
    ensures Accepted(previous, next) && !IsWithin(DeclaredPaths(next), DeclaredPaths(previous))
  {
    var item := LongSegmentIsOutside(DeclaredPaths(previous));
    next := Contract(One(item), Missing, Flags(own, false, false, false), Flags(flagged, false, false, false), false);
    assert NonEmpty([item]) == [item];
    assert DeclaredPaths(next) == [item] + [];
    assert item in DeclaredPaths(next);
  }

  lemma AcceptedIsWithin(previous: Contract, next: Contract)
    requires Accepted(previous, next)
    ensures SpeaksForItself(next) || IsWithin(DeclaredPaths(next), DeclaredPaths(previous))
  {
  }

  // Every accepted revision with these class fields stays within the previous paths
  // exactly when the fields name no extension-free class themselves; only a bare star
  // among the previous paths makes that harmless.
  lemma AcceptedStaysWithinIff(previous: Contract, own: ClassField, flagged: ClassField)
    ensures (forall next: Contract :: next.own.changeClass == own && next.flags.changeClass == flagged && Accepted(previous, next)
               ==> IsWithin(DeclaredPaths(next), DeclaredPaths(previous)))
            <==> !NamesNoExtension(own, flagged) || CoversAll(DeclaredPaths(previous))
  {
    if NamesNoExtension(own, flagged) && !CoversAll(DeclaredPaths(previous)) {
      var next := SelfNamedWidens(previous, own, flagged);
    } else {
      forall next: Contract | next.own.changeClass == own && next.flags.changeClass == flagged && Accepted(previous, next)
        ensures IsWithin(DeclaredPaths(next), DeclaredPaths(previous))
      {
        AcceptedIsWithin(previous, next);
        if CoversAll(DeclaredPaths(previous)) { AllIsWithin(DeclaredPaths(next), DeclaredPaths(previous)); }
      }
    }
  }

  lemma AllIsWithin(paths: seq<Text>, declared: seq<Text>)
    requires CoversAll(declared)
    ensures IsWithin(paths, declared)
  {
    forall item | item in paths ensures CoversOne(declared, item) {
      var star := if [STAR] in declared then [STAR] else PathScope.DOUBLE_STAR;
      assert star in declared && Covers(star, item);
    }
  }

  // Along any chain of accepted revisions the paths stay within the first ones,
  // unless some revision named its own class.
  lemma {:induction false} ChainsNeverWiden(chain: seq<Contract>)
    requires chain != []
    requires forall i :: 0 < i < |chain| ==> Accepted(chain[i - 1], chain[i])
    ensures IsWithin(DeclaredPaths(chain[|chain| - 1]), DeclaredPaths(chain[0]))
            || exists i :: 0 < i < |chain| && SpeaksForItself(chain[i])
  {
    var last := |chain| - 1;
    if last == 0 {
      WithinIsReflexive(DeclaredPaths(chain[0]));
    } else if !SpeaksForItself(chain[last]) {
      ChainsNeverWiden(chain[..last]);
      AcceptedIsWithin(chain[last - 1], chain[last]);
      if IsWithin(DeclaredPaths(chain[last - 1]), DeclaredPaths(chain[0])) {
        WithinIsTransitive(DeclaredPaths(chain[last]), DeclaredPaths(chain[last - 1]), DeclaredPaths(chain[0]));
      } else {
        var i :| 0 < i < last && SpeaksForItself(chain[..last][i]);
        assert SpeaksForItself(chain[i]);
      }
    }
  }

  // The classifier, not the caller, decided, and it saw no extension.
  predicate WithinScope(previous: Contract, next: Contract) {
    Accepted(previous, next) && !SpeaksForItself(next)
  }

  // The check joins allowed and forbidden paths, so it keeps the allowed list of
  // every accepted revision inside the old one exactly when the old forbidden
  // paths already lie inside the old allowed ones.
  lemma AllowedNeverWidensIff(previous: Contract)
    ensures (forall next :: WithinScope(previous, next) ==>
               IsWithin(StringValues(next.allowedPaths), StringValues(previous.allowedPaths)))
            <==> IsWithin(StringValues(previous.forbiddenPaths), StringValues(previous.allowedPaths))
  {
    var allowed, forbidden := StringValues(previous.allowedPaths), StringValues(previous.forbiddenPaths);
    if IsWithin(forbidden, allowed) {
      forall next | WithinScope(previous, next) ensures IsWithin(StringValues(next.allowedPaths), allowed) {
        forall item | item in StringValues(next.allowedPaths) ensures CoversOne(allowed, item) {
          AcceptedItem(previous, next, item);
        }
      }
    } else {
      var next := SwappedContract(previous);
      assert !IsWithin(StringValues(next.allowedPaths), allowed);
    }
  }

  lemma AcceptedItem(previous: Contract, next: Contract, item: Text)
    requires WithinScope(previous, next) && item in StringValues(next.allowedPaths)
    requires IsWithin(StringValues(previous.forbiddenPaths), StringValues(previous.allowedPaths))
    ensures CoversOne(StringValues(previous.allowedPaths), item)
  {
    assert item in DeclaredPaths(next);
    var scope :| scope in DeclaredPaths(previous) && Covers(scope, item);
    if scope !in StringValues(previous.allowedPaths) {
      var outer :| outer in StringValues(previous.allowedPaths) && Covers(outer, scope);
      CoversTransitive(outer, scope, item);
    }
  }

  // Allowing what was forbidden is not an extension.
  lemma SwappedContract(previous: Contract) returns (next: Contract)
    requires StringValues(previous.forbiddenPaths) != []
    ensures WithinScope(previous, next)
    ensures StringValues(next.allowedPaths) == StringValues(previous.forbiddenPaths)
  {
    var plain := Flags(Absent, false, false, false);
    next := Contract(previous.forbiddenPaths, Missing, plain, plain, false);
    var before, after := DeclaredPaths(previous), DeclaredPaths(next);
    forall item | item in after ensures CoversOne(before, item) {
      assert item in before;
      CoversSelf(item);
    }
  }

  // ---- Containment is sound for matching ----

  // What lower-casing a unit keeps: the slash and the wildcards, and nothing becomes a wildcard.
  predicate KeepsSyntax(fold: Unit -> Unit) {
    fold(SLASH) == SLASH && fold(STAR) == STAR && fold(QUESTION) == QUESTION
    && forall u :: fold(u) == STAR || fold(u) == QUESTION ==> fold(u) == u
  }

  lemma NormalizedPrefix(fold: Unit -> Unit, prefix: Text, s: Text)
    requires StartsWith(Slashes(s), prefix)
    ensures StartsWith(PathScope.Normalized(fold, s), Map(fold, prefix))
  {
  }

  lemma MapAppend(fold: Unit -> Unit, a: Text, b: Text)
    ensures Map(fold, a + b) == Map(fold, a) + Map(fold, b)
  {
  }

  lemma BelowIsAdmitted(fold: Unit -> Unit, scope: Text, path: Text)
    requires KeepsSyntax(fold)
    requires EndsWith(Slashes(scope), PathScope.BELOW_ALL)
    requires StartsWith(Slashes(path), Slashes(scope)[..|scope| - 2])
    ensures PathScope.Admits(PathScope.Normalized(fold, scope), PathScope.Normalized(fold, path))
  {
    var outer, folded := Slashes(scope), PathScope.Normalized(fold, scope);
    var prefix := outer[..|outer| - 3];
    assert outer == prefix + PathScope.BELOW_ALL;
    assert outer[..|outer| - 2] == prefix + [SLASH];
    MapAppend(fold, prefix, PathScope.BELOW_ALL);
    MapAppend(fold, prefix, [SLASH]);
    assert Map(fold, PathScope.BELOW_ALL) == PathScope.BELOW_ALL;
    assert Map(fold, [SLASH]) == [SLASH];
    NormalizedPrefix(fold, prefix + [SLASH], path);
    Ending(Map(fold, prefix), PathScope.BELOW_ALL);
    assert folded == Map(fold, prefix) + PathScope.BELOW_ALL;
  }

  lemma Ending(a: Text, b: Text)
    ensures EndsWith(a + b, b) && (a + b)[..|a + b| - |b|] == a
  {
  }

  lemma PlainIsAdmitted(fold: Unit -> Unit, scope: Text, path: Text)
    requires KeepsSyntax(fold) && PathScope.Wildcardless(Slashes(path))
    requires Slashes(path) == Slashes(scope) || StartsWith(Slashes(path), Slashes(scope) + [SLASH])
    ensures PathScope.Admits(PathScope.Normalized(fold, scope), PathScope.Normalized(fold, path))
  {
    var item, outer, folded := Slashes(path), Slashes(scope), PathScope.Normalized(fold, scope);
    if item != outer {
      MapAppend(fold, outer, [SLASH]);
      assert Map(fold, [SLASH]) == [SLASH];
      NormalizedPrefix(fold, outer + [SLASH], path);
    }
    forall i | 0 <= i < |folded| ensures folded[i] != STAR && folded[i] != QUESTION {
      assert outer[i] == item[i];
    }
    NoStarEnding(folded);
  }

  lemma NoStarEnding(s: Text)
    ensures s == [STAR] || s == PathScope.DOUBLE_STAR || EndsWith(s, PathScope.BELOW_ALL) || EndsWith(s, PathScope.BELOW)
            ==> STAR in s
  {
    if EndsWith(s, PathScope.BELOW_ALL) {
      assert s[|s| - 3..][2] == STAR;
    } else if EndsWith(s, PathScope.BELOW) {
      assert s[|s| - 2..][1] == STAR;
    }
  }

  lemma CoveredIsAdmitted(fold: Unit -> Unit, scope: Text, path: Text)
    requires KeepsSyntax(fold) && PathScope.Wildcardless(path) && Covers(Slashes(scope), Slashes(path))
    ensures PathScope.Admits(PathScope.Normalized(fold, scope), PathScope.Normalized(fold, path))
  {
    var item, outer := Slashes(path), Slashes(scope);
    assert PathScope.Wildcardless(item);
    if outer == [STAR] || outer == PathScope.DOUBLE_STAR {
      assert PathScope.Normalized(fold, scope) == outer;
    } else if EndsWith(outer, PathScope.BELOW_ALL) && StartsWith(item, outer[..|outer| - 2]) {
      BelowIsAdmitted(fold, scope, path);
    } else {
      PlainIsAdmitted(fold, scope, path);
    }
  }

  // Containment in the declared list means the scope matcher accepts the path.
  lemma WithinIsMatched(fold: Unit -> Unit, path: Text, declared: PathField)
    requires KeepsSyntax(fold) && path != [] && PathScope.Wildcardless(path) && declared.Many?
    requires IsWithin(StringValues(One(path)), StringValues(declared))
    ensures PathScope.InScope(fold, path, declared.paths)
  {
    assert NonEmpty([Slashes(path)]) == [Slashes(path)];
    assert Slashes(path) in StringValues(One(path));
    var scope :| scope in StringValues(declared) && Covers(scope, Slashes(path));
    var all := seq(|declared.paths|, i requires 0 <= i < |declared.paths| => Slashes(declared.paths[i]));
    NonEmptyKeeps(all);
    var i :| 0 <= i < |all| && all[i] == scope;
    CoveredIsAdmitted(fold, declared.paths[i], path);
  }
}
