/** When containment of scopes means inclusion of what they admit. */
module ScopeInclusion {
  import opened Prelude
  import opened JsText
  import opened PathScope
  import opened ChangeContract

  // A scope without the closing stars the scan reads as "everything below".
  function Base(scope: Text): Text {
    if EndsWith(scope, BELOW_ALL) then scope[..|scope| - 3]
    else if EndsWith(scope, BELOW) then scope[..|scope| - 2]
    else scope
  }

  predicate ReadsLiterally(scope: Text) {
    scope == [STAR] || scope == DOUBLE_STAR || Wildcardless(Base(scope))
  }

  // ---- A literal scope admits what its parts admit ----

  lemma PrefixOf(a: Text, b: Text, c: Text)
    requires StartsWith(b, a) && StartsWith(c, b)
    ensures StartsWith(c, a)
  {
  }

  lemma LongerPrefix(base: Text, q: Text, item: Text)
    requires StartsWith(item, base + [SLASH]) && StartsWith(item, q) && |base| < |q|
    ensures StartsWith(q, base + [SLASH])
  {
  }

  lemma BelowStarsItem(base: Text, item: Text, target: Text)
    requires StartsWith(item, base + [SLASH]) && EndsWith(item, BELOW_ALL)
    requires target == item[..|item| - 3] || IsBelow(target, item[..|item| - 3])
    ensures IsBelow(target, base) || (item == base + BELOW_ALL && target == base)
  {
    var q := item[..|item| - 3];
    assert item == q + BELOW_ALL;
    assert item[|base|] == (base + [SLASH])[|base|] == SLASH;
    assert item[|item| - 1] == STAR && item[|item| - 2] == STAR;
    if |q| == |base| {
      assert q == base;
    } else {
      LongerPrefix(base, q, item);
      if target != q {
        PrefixOf(q, q + [SLASH], target);
        PrefixOf(base + [SLASH], q, target);
      }
    }
  }

  lemma BelowStarItem(base: Text, item: Text, target: Text)
    requires StartsWith(item, base + [SLASH]) && EndsWith(item, BELOW) && IsBelow(target, item[..|item| - 2])
    ensures IsBelow(target, base)
  {
    var q := item[..|item| - 2];
    assert item == q + BELOW;
    assert item[|base|] == (base + [SLASH])[|base|] == SLASH;
    assert item[|item| - 1] == STAR;
    if |q| == |base| {
      assert q == base;
    } else {
      LongerPrefix(base, q, item);
      PrefixOf(q, q + [SLASH], target);
      PrefixOf(base + [SLASH], q, target);
    }
  }

  lemma GlobItem(base: Text, item: Text, target: Text)
    requires Wildcardless(base) && StartsWith(item, base + [SLASH]) && Denotes(Tokens(item), target)
    ensures IsBelow(target, base)
  {
    var root := base + [SLASH];
    assert item == root + item[|root|..];
    LiteralTokens(root, item[|root|..]);
    LiteralsDenote(root, Tokens(item[|root|..]), target);
  }

  lemma ItemBelow(base: Text, item: Text, target: Text)
    requires Wildcardless(base) && StartsWith(item, base + [SLASH]) && Admits(item, target)
    ensures IsBelow(target, base) || (item == base + BELOW_ALL && target == base)
  {
    NoStarBelow(base + [SLASH], item);
    if EndsWith(item, BELOW_ALL) {
      BelowStarsItem(base, item, target);
    } else if EndsWith(item, BELOW) {
      BelowStarItem(base, item, target);
    } else if STAR in item || QUESTION in item {
      GlobItem(base, item, target);
    } else if target != item {
      PrefixOf(item, item + [SLASH], target);
      PrefixOf(base + [SLASH], item, target);
    }
  }

  lemma CoveredLiesBelow(outer: Text, item: Text)
    requires outer != [STAR] && outer != DOUBLE_STAR && Covers(outer, item) && item != outer
    ensures StartsWith(item, Base(outer) + [SLASH])
    ensures EndsWith(outer, BELOW) && !EndsWith(outer, BELOW_ALL) ==> item != Base(outer) + BELOW_ALL
  {
    var base := Base(outer);
    if EndsWith(outer, BELOW_ALL) {
      assert outer == base + BELOW_ALL && outer[..|outer| - 2] == base + [SLASH];
      if StartsWith(item, outer + [SLASH]) {
        PrefixOf(outer[..|outer| - 2], outer + [SLASH], item);
      }
    } else if EndsWith(outer, BELOW) {
      assert outer == base + BELOW;
      assert StartsWith(outer + [SLASH], base + [SLASH]);
      PrefixOf(base + [SLASH], outer + [SLASH], item);
      assert item[|base| + 2] == (outer + [SLASH])[|outer|] == SLASH;
      assert (base + BELOW_ALL)[|base| + 2] == STAR;
    }
  }

  lemma LiteralScopeIncludes(outer: Text, item: Text, target: Text)
    requires ReadsLiterally(outer) && Covers(outer, item) && Admits(item, target)
    ensures Admits(outer, target)
  {
    if outer != [STAR] && outer != DOUBLE_STAR && item != outer {
      CoveredLiesBelow(outer, item);
      ItemBelow(Base(outer), item, target);
      if !EndsWith(outer, BELOW_ALL) && !EndsWith(outer, BELOW) { assert Base(outer) == outer; }
    }
  }

  // ---- Any other scope has a part that admits more ----

  const LINE_FEED: Unit := 0x0A

  // Slashes with a line feed right behind them.
  function Breaks(s: Text): nat {
    if |s| < 2 then 0 else (if s[0] == SLASH && s[1] == LINE_FEED then 1 else 0) + Breaks(s[1..])
  }

  lemma {:induction false} RunBreaks(token: Token, run: Text, rest: Text)
    requires (token.AnyRun? || token.SegmentRun?) && Run(token, run)
    ensures Breaks(run + rest) <= Breaks(rest) + 1
  {
    if run == [] {
      assert run + rest == rest;
    } else {
      assert (run + rest)[1..] == run[1..] + rest;
      forall i | 0 <= i < |run[1..]| ensures run[1..][i] == run[i + 1] {}
      RunBreaks(token, run[1..], rest);
      if |run| == 1 { assert run[1..] + rest == rest; }
    }
  }

  // Each token takes in at most one of them.
  lemma {:induction false} DenotedBreaks(tokens: seq<Token>, s: Text)
    requires Denotes(tokens, s)
    ensures Breaks(s) <= |tokens|
  {
    if tokens != [] {
      if StartsRun(tokens) {
        var k := RunDenoted(tokens, s);
        DenotedBreaks(tokens[1..], s[k..]);
        assert s == s[..k] + s[k..];
        RunBreaks(tokens[0], s[..k], s[k..]);
      } else {
        DenotedBreaks(tokens[1..], s[1..]);
      }
    }
  }

  function Ladder(k: nat): Text {
    if k == 0 then [] else [SLASH, LINE_FEED] + Ladder(k - 1)
  }

  lemma {:induction false} LadderBreaks(k: nat)
    ensures Breaks(Ladder(k)) >= k
  {
    if k > 0 {
      var rest := Ladder(k - 1);
      LadderBreaks(k - 1);
      MoreBreaks([LINE_FEED], rest);
      assert Ladder(k)[1..] == [LINE_FEED] + rest;
    }
  }

  lemma {:induction false} MoreBreaks(s: Text, t: Text)
    ensures Breaks(s + t) >= Breaks(t)
  {
    if s == [] {
      assert s + t == t;
    } else {
      MoreBreaks(s[1..], t);
      assert (s + t)[1..] == s[1..] + t;
    }
  }

  lemma {:induction false} TokensAreFewer(glob: Text)
    ensures |Tokens(glob)| <= |glob|
  {
    if glob != [] {
      if glob[0] == STAR && |glob| > 1 && glob[1] == STAR { TokensAreFewer(glob[2..]); } else { TokensAreFewer(glob[1..]); }
    }
  }

  // A glob does not reach through more line breaks than it has tokens.
  lemma GlobIsOutgrown(outer: Text) returns (item: Text, target: Text)
    requires !ReadsLiterally(outer) && !EndsWith(outer, BELOW_ALL) && !EndsWith(outer, BELOW)
    ensures Covers(outer, item) && Admits(item, target) && !Admits(outer, target)
  {
    item := outer + BELOW_ALL;
    target := outer + Ladder(|outer| + 1);
    assert item[..|outer| + 1] == outer + [SLASH];
    assert Ladder(|outer| + 1)[0] == SLASH;
    assert target[..|outer| + 1] == outer + [SLASH];
    ClosingStarsAdmit(outer, target);
    if Denotes(Tokens(outer), target) {
      DenotedBreaks(Tokens(outer), target);
      TokensAreFewer(outer);
      MoreBreaks(outer, Ladder(|outer| + 1));
      LadderBreaks(|outer| + 1);
    }
  }

  // What lies below a base with a wildcard is read as a glob, the base itself literally.
  lemma BaseIsOutgrown(outer: Text) returns (item: Text, target: Text)
    requires !ReadsLiterally(outer) && (EndsWith(outer, BELOW_ALL) || EndsWith(outer, BELOW))
    ensures Covers(outer, item) && Admits(item, target) && !Admits(outer, target)
  {
    var base := Base(outer);
    if EndsWith(outer, BELOW_ALL) {
      item := base + [SLASH] + [0x78];
      assert outer[..|outer| - 2] == base + [SLASH];
      assert outer == base + BELOW_ALL;
    } else {
      item := outer + [SLASH] + [0x78];
      assert outer == base + BELOW;
    }
    assert forall u :: u in base ==> u in item;
    target := Instance(Tokens(item));
    InstanceIsDenoted(Tokens(item));
    InstanceIsWildcardless(item);
    GlobEndsInX(item);
    WildcardsAreNotInherited(base, target);
    if IsBelow(target, base) { PrefixOf(base, base + [SLASH], target); }
  }

  lemma GlobEndsInX(item: Text)
    requires item != [] && item[|item| - 1] == 0x78 && !Wildcardless(item)
    ensures forall target :: Admits(item, target) <==> Denotes(Tokens(item), target)
  {
    EndingUnits(item, BELOW_ALL);
    EndingUnits(item, BELOW);
  }

  lemma EndingUnits(s: Text, ending: Text)
    ensures EndsWith(s, ending) ==> forall k :: 0 <= k < |ending| ==> s[|s| - |ending| + k] == ending[k]
  {
    if EndsWith(s, ending) {
      forall k | 0 <= k < |ending| ensures s[|s| - |ending| + k] == ending[k] {
        assert s[|s| - |ending|..][k] == s[|s| - |ending| + k];
      }
    }
  }

  // A scope admits all that the scopes within it admit exactly when it is read literally.
  lemma ContainmentIsInclusionIff(outer: Text)
    ensures (forall item, target :: Covers(outer, item) && Admits(item, target) ==> Admits(outer, target))
            <==> ReadsLiterally(outer)
  {
    if ReadsLiterally(outer) {
      forall item, target | Covers(outer, item) && Admits(item, target) ensures Admits(outer, target) {
        LiteralScopeIncludes(outer, item, target);
      }
    } else if EndsWith(outer, BELOW_ALL) || EndsWith(outer, BELOW) {
      var item, target := BaseIsOutgrown(outer);
    } else {
      var item, target := GlobIsOutgrown(outer);
    }
  }

  // ---- Whole scope lists ----

  lemma FoldedEnding(fold: Unit -> Unit, base: Text, ending: Text)
    requires KeepsSyntax(fold) && (ending == BELOW_ALL || ending == BELOW)
    ensures Map(fold, base + ending) == Map(fold, base) + ending
  {
    MapAppend(fold, base, ending);
    assert Map(fold, ending) == ending;
  }

  lemma FoldedIsWildcardless(fold: Unit -> Unit, s: Text)
    requires KeepsSyntax(fold) && Wildcardless(s)
    ensures Wildcardless(Map(fold, s))
  {
    forall i | 0 <= i < |s| ensures Map(fold, s)[i] != STAR && Map(fold, s)[i] != QUESTION {
      assert s[i] in s;
    }
  }

  lemma FoldedReadsLiterally(fold: Unit -> Unit, outer: Text)
    requires KeepsSyntax(fold) && ReadsLiterally(outer)
    ensures ReadsLiterally(Map(fold, outer))
  {
    if outer == [STAR] || outer == DOUBLE_STAR {
      assert Map(fold, outer) == outer;
    } else {
      var base := Base(outer);
      FoldedIsWildcardless(fold, base);
      if EndsWith(outer, BELOW_ALL) {
        assert outer == base + BELOW_ALL;
        FoldedEnding(fold, base, BELOW_ALL);
        Ending(Map(fold, base), BELOW_ALL);
      } else if EndsWith(outer, BELOW) {
        assert outer == base + BELOW;
        FoldedEnding(fold, base, BELOW);
        Ending(Map(fold, base), BELOW);
        EndingUnits(Map(fold, outer), BELOW_ALL);
        EndingUnits(Map(fold, outer), BELOW);
      } else {
        NoStarEnding(Map(fold, outer));
      }
    }
  }

  lemma FoldedCovers(fold: Unit -> Unit, outer: Text, item: Text)
    requires KeepsSyntax(fold) && Covers(outer, item)
    ensures Covers(Map(fold, outer), Map(fold, item))
  {
    if outer == [STAR] || outer == DOUBLE_STAR {
      assert Map(fold, outer) == outer;
    } else if EndsWith(outer, BELOW_ALL) && StartsWith(item, outer[..|outer| - 2]) {
      var base := outer[..|outer| - 3];
      assert outer == base + BELOW_ALL && outer[..|outer| - 2] == base + [SLASH];
      FoldedEnding(fold, base, BELOW_ALL);
      Ending(Map(fold, base), BELOW_ALL);
      FoldedPrefix(fold, base, item);
      assert (Map(fold, base) + BELOW_ALL)[..|outer| - 2] == Map(fold, base) + [SLASH];
    } else if item != outer {
      FoldedPrefix(fold, outer, item);
    }
  }

  lemma FoldedPrefix(fold: Unit -> Unit, base: Text, item: Text)
    requires KeepsSyntax(fold) && StartsWith(item, base + [SLASH])
    ensures StartsWith(Map(fold, item), Map(fold, base) + [SLASH])
  {
    assert item == base + [SLASH] + item[|base| + 1..];
    MapAppend(fold, base + [SLASH], item[|base| + 1..]);
    MapAppend(fold, base, [SLASH]);
    assert Map(fold, [SLASH]) == [SLASH];
  }

  lemma ValuesAreSlashed(field: PathField)
    ensures forall p :: p in StringValues(field) ==> Slashes(p) == p
  {
    match field
    case Missing =>
    case One(path) =>
      NonEmptyKeeps([Slashes(path)]);
      assert Slashes(Slashes(path)) == Slashes(path);
    case Many(paths) =>
      var all := seq(|paths|, i requires 0 <= i < |paths| => Slashes(paths[i]));
      NonEmptyKeeps(all);
      forall p | p in StringValues(field) ensures Slashes(p) == p {
        var i :| 0 <= i < |all| && all[i] == p;
        assert Slashes(Slashes(paths[i])) == Slashes(paths[i]);
      }
  }

  // A contained list of scopes, unless it is empty, admits nothing the declared one does not.
  lemma ContainedListsAdmitLess(fold: Unit -> Unit, next: PathField, previous: PathField, target: Text)
    requires KeepsSyntax(fold) && StringValues(next) != [] && IsWithin(StringValues(next), StringValues(previous))
    requires forall scope :: scope in StringValues(previous) ==> ReadsLiterally(scope)
    requires InScope(fold, target, StringValues(next))
    ensures InScope(fold, target, StringValues(previous))
  {
    var nexts, previouses := StringValues(next), StringValues(previous);
    var i :| 0 <= i < |nexts| && Admits(Normalized(fold, nexts[i]), Normalized(fold, target));
    assert nexts[i] in nexts;
    var scope :| scope in previouses && Covers(scope, nexts[i]);
    ValuesAreSlashed(next);
    ValuesAreSlashed(previous);
    FoldedCovers(fold, scope, nexts[i]);
    FoldedReadsLiterally(fold, scope);
    LiteralScopeIncludes(Map(fold, scope), Map(fold, nexts[i]), Normalized(fold, target));
    var k :| 0 <= k < |previouses| && previouses[k] == scope;
    assert Admits(Normalized(fold, previouses[k]), Normalized(fold, target));
  }

  // Dropping every path counts as no extension, and a list without paths admits everything.
  lemma DroppingAllPathsWidens(fold: Unit -> Unit, previous: Contract, next: Contract, target: Text)
    requires DeclaredPaths(next) == [] && !ExplicitClass(next).Known?
    requires !next.own.replacement && !next.flags.replacement && !next.own.scopeExtension && !next.flags.scopeExtension
    ensures WithinScope(previous, next) && InScope(fold, target, StringValues(next.allowedPaths))
  {
  }
}
