/** Scope matching: the glob compiler, what it must mean, and the scope scan. */
module PathScope {
  import opened Prelude
  import opened JsText
  import opened RegExpPattern

  // ---- What a glob means ----

  datatype Token = AnyRun | SegmentRun | SegmentUnit | Literal(unit: Unit)

  // Two stars together are one token, read from the left.
  function Tokens(glob: Text): seq<Token> {
    if glob == [] then []
    else if glob[0] == STAR then
      if |glob| > 1 && glob[1] == STAR then [AnyRun] + Tokens(glob[2..]) else [SegmentRun] + Tokens(glob[1..])
    else if glob[0] == QUESTION then [SegmentUnit] + Tokens(glob[1..])
    else [Literal(glob[0])] + Tokens(glob[1..])
  }

  // A double star runs over anything but a line break, a single star over one segment.
  predicate Run(token: Token, s: Text) {
    forall i :: 0 <= i < |s| ==> if token.AnyRun? then !LineTerminator(s[i]) else s[i] != SLASH
  }

  predicate Denotes(tokens: seq<Token>, s: Text)
    decreases |tokens|
  {
    if tokens == [] then s == []
    else match tokens[0]
      case SegmentUnit => s != [] && s[0] != SLASH && Denotes(tokens[1..], s[1..])
      case Literal(u) => s != [] && s[0] == u && Denotes(tokens[1..], s[1..])
      case run => exists k :: 0 <= k <= |s| && Run(run, s[..k]) && Denotes(tokens[1..], s[k..])
  }

  // ---- The compiler ----

  // char.replace(/[|\\{}()[\]^$+?.]/g, '\\$&')
  function Escape(u: Unit): Text {
    if SyntaxCharacter(u) && u != STAR then [BACKSLASH, u] else [u]
  }

  const ANY_RUN: Text := [DOT, STAR]
  const SEGMENT_RUN: Text := [OPEN_BRACKET, CARET, SLASH, CLOSE_BRACKET, STAR]
  const SEGMENT_UNIT: Text := [OPEN_BRACKET, CARET, SLASH, CLOSE_BRACKET]

  function Body(glob: Text): Text {
    if glob == [] then []
    else if glob[0] == STAR then
      if |glob| > 1 && glob[1] == STAR then ANY_RUN + Body(glob[2..]) else SEGMENT_RUN + Body(glob[1..])
    else if glob[0] == QUESTION then SEGMENT_UNIT + Body(glob[1..])
    else Escape(glob[0]) + Body(glob[1..])
  }

  method EmbeddedGlobRegex(glob: Text) returns (source: Text)
    ensures source == [CARET] + Body(glob) + [DOLLAR]
  {
    source := [CARET];
    var index := 0;
    while index < |glob|
      invariant 0 <= index <= |glob|
      invariant source + Body(glob[index..]) == [CARET] + Body(glob)
    {
      var unit := glob[index];
      ghost var before, rest := source, glob[index..];
      if unit == STAR {
        if index + 1 < |glob| && glob[index + 1] == STAR {
          source := source + ANY_RUN;
          index := index + 1;
          assert glob[index + 1..] == rest[2..];
        } else {
          source := source + SEGMENT_RUN;
          assert glob[index + 1..] == rest[1..];
        }
      } else if unit == QUESTION {
        source := source + SEGMENT_UNIT;
        assert glob[index + 1..] == rest[1..];
      } else {
        source := source + Escape(unit);
        assert glob[index + 1..] == rest[1..];
      }
      index := index + 1;
      Associates(before, source[|before|..], Body(glob[index..]));
      assert source == before + source[|before|..];
    }
    source := source + [DOLLAR];
  }

  lemma Associates(a: Text, b: Text, c: Text)
    ensures a + b + c == a + (b + c)
  {
  }

  // ---- The compiled text means what the glob means ----

  function TermOf(token: Token): Term {
    match token
    case AnyRun => Repeat(NotLineTerminator)
    case SegmentRun => Repeat(NoneOf([SLASH]))
    case SegmentUnit => Single(NoneOf([SLASH]))
    case Literal(u) => Single(Exactly(u))
  }

  function Terms(tokens: seq<Token>): seq<Term> {
    if tokens == [] then [AssertEnd] else [TermOf(tokens[0])] + Terms(tokens[1..])
  }

  function Emitted(token: Token): Text {
    match token
    case AnyRun => ANY_RUN
    case SegmentRun => SEGMENT_RUN
    case SegmentUnit => SEGMENT_UNIT
    case Literal(u) => Escape(u)
  }

  // One token's text, before text that opens no quantifier, parses as its term.
  lemma EmittedParses(token: Token, rest: Text)
    requires token.Literal? ==> token.unit != STAR
    requires !StartsQuantifier(rest)
    ensures Parse(Emitted(token) + rest) == Prefixed(TermOf(token), Parse(rest))
    ensures !StartsQuantifier(Emitted(token) + rest)
  {
    var s := Emitted(token) + rest;
    match token
    case AnyRun =>
      assert s[1..] == [STAR] + rest && s[1..][1..] == rest;
    case SegmentRun =>
      SlashClass([STAR] + rest);
      assert s == SEGMENT_UNIT + ([STAR] + rest);
      assert ([STAR] + rest)[1..] == rest;
    case SegmentUnit =>
      SlashClass(rest);
    case Literal(u) =>
      assert s[|Escape(u)|..] == rest;
  }

  lemma SlashClass(rest: Text)
    ensures ParseAtom(SEGMENT_UNIT + rest) == Some((NoneOf([SLASH]), rest))
  {
    var s := SEGMENT_UNIT + rest;
    var units := [SLASH, CLOSE_BRACKET] + rest;
    assert s[1] == CARET && s[2..] == units;
    assert units[1..] == [CLOSE_BRACKET] + rest && units[1..][1..] == rest;
    assert ParseClass(units[1..]) == Some(([], rest));
    assert units[0] == SLASH && [SLASH] + [] == [SLASH];
    assert ParseClass(units) == Some(([SLASH], rest));
  }

  lemma {:induction false} BodyParses(glob: Text)
    ensures Parse(Body(glob) + [DOLLAR]) == Some(Terms(Tokens(glob)))
    ensures !StartsQuantifier(Body(glob) + [DOLLAR])
  {
    if glob == [] {
      assert Body(glob) + [DOLLAR] == [DOLLAR] && [DOLLAR][1..] == [];
      assert Parse([]) == Some([]) && [AssertEnd] + [] == [AssertEnd];
    } else {
      var n := if glob[0] == STAR && |glob| > 1 && glob[1] == STAR then 2 else 1;
      BodyParses(glob[n..]);
      var token := Tokens(glob)[0];
      EmittedParses(token, Body(glob[n..]) + [DOLLAR]);
      Associates(Emitted(token), Body(glob[n..]), [DOLLAR]);
      assert Tokens(glob)[1..] == Tokens(glob[n..]);
    }
  }

  lemma RunAgrees(chars: CharSet, token: Token, input: Text, at: nat, to: nat)
    requires at <= to <= |input| && TermOf(token) == Repeat(chars)
    ensures AllBetween(chars, input, at, to) <==> Run(token, input[at..][..to - at])
  {
    var s := input[at..][..to - at];
    assert forall i :: 0 <= i < |s| ==> s[i] == input[at + i];
    if Run(token, s) {
      forall i | at <= i < to ensures chars.Contains(input[i]) {
        assert s[i - at] == input[i];
      }
    }
  }

  // A matched run has a length: its units are in the set, and the rest matches after it.
  lemma RunMatched(chars: CharSet, tokens: seq<Token>, input: Text, at: nat) returns (k: nat)
    requires at <= |input| && tokens != [] && TermOf(tokens[0]) == Repeat(chars)
    requires MatchesAt(Terms(tokens), input, at)
    ensures at + k <= |input| && Run(tokens[0], input[at..][..k]) && MatchesAt(Terms(tokens[1..]), input, at + k)
  {
    var to := RepeatEnds(chars, Terms(tokens[1..]), input, at);
    k := to - at;
    RunAgrees(chars, tokens[0], input, at, to);
  }

  lemma RunMatches(chars: CharSet, tokens: seq<Token>, input: Text, at: nat, k: nat)
    requires at + k <= |input| && tokens != [] && TermOf(tokens[0]) == Repeat(chars)
    requires Run(tokens[0], input[at..][..k]) && MatchesAt(Terms(tokens[1..]), input, at + k)
    ensures MatchesAt(Terms(tokens), input, at)
  {
    RunAgrees(chars, tokens[0], input, at, at + k);
    RepeatTakes(chars, Terms(tokens[1..]), input, at, at + k);
  }

  lemma RunDenoted(tokens: seq<Token>, s: Text) returns (k: nat)
    requires StartsRun(tokens) && Denotes(tokens, s)
    ensures k <= |s| && Run(tokens[0], s[..k]) && Denotes(tokens[1..], s[k..])
  {
    k :| 0 <= k <= |s| && Run(tokens[0], s[..k]) && Denotes(tokens[1..], s[k..]);
  }

  lemma RunDenotes(tokens: seq<Token>, s: Text, k: nat)
    requires StartsRun(tokens)
    requires k <= |s| && Run(tokens[0], s[..k]) && Denotes(tokens[1..], s[k..])
    ensures Denotes(tokens, s)
  {
  }

  predicate StartsRun(tokens: seq<Token>) {
    tokens != [] && (tokens[0].AnyRun? || tokens[0].SegmentRun?)
  }

  lemma {:induction false} MatchedIsDenoted(tokens: seq<Token>, input: Text, at: nat)
    requires at <= |input| && StartsRun(tokens) && MatchesAt(Terms(tokens), input, at)
    ensures Denotes(tokens, input[at..])
    decreases |tokens|, 0
  {
    var k := RunMatched(TermOf(tokens[0]).chars, tokens, input, at);
    TermsDenote(tokens[1..], input, at + k);
    assert input[at..][k..] == input[at + k..];
    RunDenotes(tokens, input[at..], k);
  }

  lemma {:induction false} DenotedIsMatched(tokens: seq<Token>, input: Text, at: nat)
    requires at <= |input| && StartsRun(tokens) && Denotes(tokens, input[at..])
    ensures MatchesAt(Terms(tokens), input, at)
    decreases |tokens|, 0
  {
    var k := RunDenoted(tokens, input[at..]);
    TermsDenote(tokens[1..], input, at + k);
    assert input[at..][k..] == input[at + k..];
    RunMatches(TermOf(tokens[0]).chars, tokens, input, at, k);
  }

  lemma {:induction false} TermsDenote(tokens: seq<Token>, input: Text, at: nat)
    requires at <= |input|
    ensures MatchesAt(Terms(tokens), input, at) <==> Denotes(tokens, input[at..])
    decreases |tokens|, 1
  {
    if tokens == [] {
      assert Terms(tokens)[1..] == [];
    } else if StartsRun(tokens) {
      if MatchesAt(Terms(tokens), input, at) { MatchedIsDenoted(tokens, input, at); }
      if Denotes(tokens, input[at..]) { DenotedIsMatched(tokens, input, at); }
    } else if at < |input| {
      TermsDenote(tokens[1..], input, at + 1);
      assert input[at..][1..] == input[at + 1..] && Terms(tokens)[1..] == Terms(tokens[1..]);
    }
  }

  // Compiling keeps the meaning: the emitted text is a pattern, and it accepts
  // exactly what the tokens of the glob denote.
  lemma CompilingKeepsMeaning(glob: Text, target: Text)
    ensures (var pattern := Parse([CARET] + Body(glob) + [DOLLAR]);
             pattern.Some? && (Test(pattern.value, target) <==> Denotes(Tokens(glob), target)))
  {
    var source := [CARET] + Body(glob) + [DOLLAR];
    BodyParses(glob);
    Associates([CARET], Body(glob), [DOLLAR]);
    assert source[1..] == Body(glob) + [DOLLAR];
    var terms := [AssertStart] + Terms(Tokens(glob));
    assert terms[1..] == Terms(Tokens(glob));
    TermsDenote(Tokens(glob), target, 0);
    assert target[0..] == target;
    assert MatchesAt(terms, target, 0) <==> Denotes(Tokens(glob), target);
  }

  // ---- The scope scan ----

  const DOUBLE_STAR: Text := [STAR, STAR]
  const BELOW_ALL: Text := [SLASH, STAR, STAR]
  const BELOW: Text := [SLASH, STAR]

  // Backslashes become slashes, then each unit is folded to lower case.
  function Normalized(fold: Unit -> Unit, s: Text): Text {
    Map(fold, Slashes(s))
  }

  predicate IsBelow(target: Text, prefix: Text) {
    StartsWith(target, prefix + [SLASH])
  }

  // What one normalised scope admits.
  predicate Admits(scope: Text, target: Text) {
    if scope == [STAR] || scope == DOUBLE_STAR then true
    else if EndsWith(scope, BELOW_ALL) then
      var prefix := scope[..|scope| - 3];
      target == prefix || IsBelow(target, prefix)
    else if EndsWith(scope, BELOW) then IsBelow(target, scope[..|scope| - 2])
    else if STAR in scope || QUESTION in scope then Denotes(Tokens(scope), target)
    else target == scope || IsBelow(target, scope)
  }

  predicate InScope(fold: Unit -> Unit, target: Text, scopes: seq<Text>) {
    scopes == [] || exists i :: 0 <= i < |scopes| && Admits(Normalized(fold, scopes[i]), Normalized(fold, target))
  }

  method MatchPathScope(fold: Unit -> Unit, targetPath: Text, scopes: seq<Text>) returns (matches: bool)
    ensures matches <==> InScope(fold, targetPath, scopes)
  {
    if |scopes| == 0 { return true; }
    var target := Normalized(fold, targetPath);
    for i := 0 to |scopes|
      invariant forall k :: 0 <= k < i ==> !Admits(Normalized(fold, scopes[k]), target)
    {
      var scope := Normalized(fold, scopes[i]);
      if scope == [STAR] || scope == DOUBLE_STAR { return true; }
      if EndsWith(scope, BELOW_ALL) {
        var prefix := scope[..|scope| - 3];
        if target == prefix || StartsWith(target, prefix + [SLASH]) { return true; }
      } else if EndsWith(scope, BELOW) {
        var prefix := scope[..|scope| - 2];
        if StartsWith(target, prefix + [SLASH]) { return true; }
      } else if STAR in scope || QUESTION in scope {
        var source := EmbeddedGlobRegex(scope);
        CompilingKeepsMeaning(scope, target);
        if Test(Parse(source).value, target) { return true; }
      } else if target == scope || StartsWith(target, scope + [SLASH]) {
        return true;
      }
    }
    return false;
  }

  // ---- What a scope admits, case by case ----

  ghost predicate Under(target: Text, prefix: Text) {
    exists rest :: target == prefix + Ascii("/") + rest
  }

  ghost predicate Closes(scope: Text, closing: Text) {
    exists prefix :: scope == prefix + closing
  }

  ghost predicate ByTwoStars(scope: Text, target: Text) {
    exists prefix :: scope == prefix + Ascii("/**") && (target == prefix || Under(target, prefix))
  }

  ghost predicate ByOneStar(scope: Text, target: Text) {
    exists prefix :: scope == prefix + Ascii("/*") && Under(target, prefix)
  }

  // A star or two alone admit everything, two closing stars the prefix and what is under it, one closing star
  // what is under it at any depth, another wildcard what the glob denotes, and a plain scope itself and what
  // is under it.
  ghost predicate MeantBy(scope: Text, target: Text) {
    || scope == Ascii("*") || scope == Ascii("**")
    || ByTwoStars(scope, target) || ByOneStar(scope, target)
    || (if STAR in scope || QUESTION in scope then
          !Closes(scope, Ascii("/**")) && !Closes(scope, Ascii("/*")) && Denotes(Tokens(scope), target)
        else target == scope || Under(target, scope))
  }

  lemma UnderIff(target: Text, prefix: Text)
    ensures IsBelow(target, prefix) <==> Under(target, prefix)
  {
    if IsBelow(target, prefix) { assert target == prefix + Ascii("/") + target[|prefix| + 1..]; }
  }

  lemma ClosesIff(scope: Text, closing: Text)
    ensures EndsWith(scope, closing) <==> Closes(scope, closing)
    ensures forall prefix :: scope == prefix + closing ==> EndsWith(scope, closing) && prefix == scope[..|scope| - |closing|]
  {
    if EndsWith(scope, closing) { assert scope == scope[..|scope| - |closing|] + closing; }
  }

  lemma TwoStarsIff(scope: Text, target: Text)
    ensures ByTwoStars(scope, target)
            <==> EndsWith(scope, BELOW_ALL)
                 && (target == scope[..|scope| - 3] || IsBelow(target, scope[..|scope| - 3]))
  {
    ClosesIff(scope, BELOW_ALL);
    assert BELOW_ALL == Ascii("/**");
    if EndsWith(scope, BELOW_ALL) { UnderIff(target, scope[..|scope| - 3]); }
  }

  lemma OneStarIff(scope: Text, target: Text)
    ensures ByOneStar(scope, target) <==> EndsWith(scope, BELOW) && IsBelow(target, scope[..|scope| - 2])
  {
    ClosesIff(scope, BELOW);
    assert BELOW == Ascii("/*");
    if EndsWith(scope, BELOW) { UnderIff(target, scope[..|scope| - 2]); }
  }

  lemma OneClosing(scope: Text)
    requires EndsWith(scope, BELOW_ALL)
    ensures !EndsWith(scope, BELOW) && STAR in scope
  {
    assert scope[|scope| - 3..][1] == STAR;
    assert scope[|scope| - 2..][0] == STAR;
  }

  lemma TwoStarsMean(scope: Text, target: Text)
    requires EndsWith(scope, BELOW_ALL)
    ensures Admits(scope, target) <==> MeantBy(scope, target)
  {
    ClosesIff(scope, BELOW_ALL);
    assert BELOW_ALL == Ascii("/**") && Closes(scope, Ascii("/**"));
    OneClosing(scope);
    TwoStarsIff(scope, target);
    OneStarIff(scope, target);
  }

  lemma OneStarMeans(scope: Text, target: Text)
    requires EndsWith(scope, BELOW) && !EndsWith(scope, BELOW_ALL)
    ensures Admits(scope, target) <==> MeantBy(scope, target)
  {
    ClosesIff(scope, BELOW);
    assert BELOW == Ascii("/*") && Closes(scope, Ascii("/*"));
    assert scope[|scope| - 2..][1] == STAR;
    TwoStarsIff(scope, target);
    OneStarIff(scope, target);
  }

  lemma OthersMean(scope: Text, target: Text)
    requires !EndsWith(scope, BELOW) && !EndsWith(scope, BELOW_ALL)
    ensures Admits(scope, target) <==> MeantBy(scope, target)
  {
    ClosesIff(scope, BELOW_ALL);
    ClosesIff(scope, BELOW);
    assert BELOW_ALL == Ascii("/**") && BELOW == Ascii("/*");
    TwoStarsIff(scope, target);
    OneStarIff(scope, target);
    UnderIff(target, scope);
  }

  lemma AdmitsMeans(scope: Text, target: Text)
    ensures Admits(scope, target) <==> MeantBy(scope, target)
  {
    if EndsWith(scope, BELOW_ALL) {
      TwoStarsMean(scope, target);
    } else if EndsWith(scope, BELOW) {
      OneStarMeans(scope, target);
    } else {
      OthersMean(scope, target);
    }
  }

  function Slashed(u: Unit): Unit {
    if u == BACKSLASH then SLASH else u
  }

  // Neither the kind of slash nor the case of a letter tells two targets apart.
  lemma SpellingDoesNotMatter(fold: Unit -> Unit, target: Text, spelled: Text, scopes: seq<Text>)
    requires |target| == |spelled| && forall i :: 0 <= i < |target| ==> fold(Slashed(target[i])) == fold(Slashed(spelled[i]))
    ensures InScope(fold, target, scopes) <==> InScope(fold, spelled, scopes)
  {
    assert Normalized(fold, target) == Normalized(fold, spelled);
  }

  // A closing star admits every depth; inside a scope it stays in one segment.
  lemma ClosingStarCrossesSegments(prefix: Text, target: Text)
    ensures Admits(prefix + BELOW, target) <==> Admits(prefix + BELOW_ALL, target) && target != prefix
  {
    ClosingStarAdmits(prefix, target);
    ClosingStarsAdmit(prefix, target);
    if IsBelow(target, prefix) { assert |target| > |prefix|; }
  }

  lemma ClosingStarAdmits(prefix: Text, target: Text)
    ensures Admits(prefix + BELOW, target) <==> IsBelow(target, prefix)
  {
    var star := prefix + BELOW;
    assert star[..|star| - 2] == prefix && star[|star| - 2..] == BELOW && star[|star| - 2] == SLASH;
    if prefix != [] { assert star[|star| - 3..][1] == SLASH; }
    assert star != DOUBLE_STAR by { assert star[|star| - 2] != DOUBLE_STAR[0]; }
  }

  lemma ClosingStarsAdmit(prefix: Text, target: Text)
    ensures Admits(prefix + BELOW_ALL, target) <==> target == prefix || IsBelow(target, prefix)
  {
    var stars := prefix + BELOW_ALL;
    assert stars[..|stars| - 3] == prefix && stars[|stars| - 3..] == BELOW_ALL;
    assert stars != [STAR] && stars != DOUBLE_STAR by { assert |stars| >= 3; }
  }

  // ---- The shortcuts of the scan mean what their globs mean ----

  predicate Wildcardless(s: Text) {
    STAR !in s && QUESTION !in s
  }

  function Literals(s: Text): seq<Token> {
    if s == [] then [] else [Literal(s[0])] + Literals(s[1..])
  }

  lemma {:induction false} LiteralTokens(prefix: Text, glob: Text)
    requires Wildcardless(prefix)
    ensures Tokens(prefix + glob) == Literals(prefix) + Tokens(glob)
  {
    if prefix == [] {
      assert prefix + glob == glob;
    } else {
      assert prefix == [prefix[0]] + prefix[1..];
      LiteralTokens(prefix[1..], glob);
      assert (prefix + glob)[1..] == prefix[1..] + glob;
    }
  }

  lemma {:induction false} LiteralsDenote(prefix: Text, tokens: seq<Token>, s: Text)
    ensures Denotes(Literals(prefix) + tokens, s) <==> StartsWith(s, prefix) && Denotes(tokens, s[|prefix|..])
  {
    if prefix == [] {
      assert Literals(prefix) + tokens == tokens && s[0..] == s;
    } else {
      var all := Literals(prefix) + tokens;
      assert all[1..] == Literals(prefix[1..]) + tokens;
      if s != [] {
        LiteralsDenote(prefix[1..], tokens, s[1..]);
        assert StartsWith(s, prefix) <==> s[0] == prefix[0] && StartsWith(s[1..], prefix[1..]) by {
          assert s == [s[0]] + s[1..] && prefix == [prefix[0]] + prefix[1..];
        }
        if StartsWith(s, prefix) { assert s[1..][|prefix| - 1..] == s[|prefix|..]; }
      }
    }
  }

  lemma AnyRunDenotes(s: Text)
    ensures Denotes([AnyRun], s) <==> Run(AnyRun, s)
  {
    assert [AnyRun][1..] == [];
    if Denotes([AnyRun], s) {
      var k := RunDenoted([AnyRun], s);
      assert s[..k] == s by { assert s[k..] == []; }
    }
    if Run(AnyRun, s) {
      assert s[..|s|] == s && s[|s|..] == [];
      RunDenotes([AnyRun], s, |s|);
    }
  }

  lemma ClosingStarsDenote(prefix: Text, target: Text)
    requires Wildcardless(prefix)
    ensures Denotes(Tokens(prefix + BELOW_ALL), target)
            <==> IsBelow(target, prefix) && Run(AnyRun, target[|prefix| + 1..])
  {
    var below := prefix + [SLASH];
    assert prefix + BELOW_ALL == below + DOUBLE_STAR;
    LiteralTokens(below, DOUBLE_STAR);
    assert DOUBLE_STAR[2..] == [] && Tokens([]) == [] && Tokens(DOUBLE_STAR) == [AnyRun];
    LiteralsDenote(below, [AnyRun], target);
    if StartsWith(target, below) { AnyRunDenotes(target[|below|..]); }
  }

  // A target of the tokens that holds no wildcard itself.
  function Instance(tokens: seq<Token>): Text {
    if tokens == [] then []
    else match tokens[0]
      case SegmentUnit => [0x78] + Instance(tokens[1..])
      case Literal(u) => [u] + Instance(tokens[1..])
      case _ => Instance(tokens[1..])
  }

  lemma {:induction false} InstanceIsDenoted(tokens: seq<Token>)
    ensures Denotes(tokens, Instance(tokens))
  {
    if tokens != [] {
      InstanceIsDenoted(tokens[1..]);
      if StartsRun(tokens) {
        assert Instance(tokens)[..0] == [] && Instance(tokens)[0..] == Instance(tokens[1..]);
        RunDenotes(tokens, Instance(tokens), 0);
      }
    }
  }

  lemma {:induction false} InstanceIsWildcardless(glob: Text)
    ensures Wildcardless(Instance(Tokens(glob)))
  {
    if glob != [] {
      if glob[0] == STAR && |glob| > 1 && glob[1] == STAR {
        InstanceIsWildcardless(glob[2..]);
      } else {
        InstanceIsWildcardless(glob[1..]);
      }
    }
  }

  lemma WildcardsAreNotInherited(prefix: Text, target: Text)
    requires Wildcardless(target) && !Wildcardless(prefix)
    ensures !StartsWith(target, prefix)
  {
    var i :| 0 <= i < |prefix| && (prefix[i] == STAR || prefix[i] == QUESTION);
    if |prefix| <= |target| { assert target[i] in target; }
  }

  // What the shortcut for a closing double star would answer were it its glob: all
  // but the prefix itself and targets with a line break below it.
  predicate BelowOneLine(prefix: Text, target: Text) {
    Admits(prefix + BELOW_ALL, target) && |target| > |prefix| && Run(AnyRun, target[|prefix|..])
  }

  lemma WildcardlessStarsAreTheGlob(prefix: Text, target: Text)
    requires Wildcardless(prefix)
    ensures Denotes(Tokens(prefix + BELOW_ALL), target) <==> BelowOneLine(prefix, target)
  {
    ClosingStarsAdmit(prefix, target);
    ClosingStarsDenote(prefix, target);
    if IsBelow(target, prefix) {
      assert target[|prefix|..] == [SLASH] + target[|prefix| + 1..];
      RunAfterSlash(target[|prefix| + 1..]);
    }
  }

  // The shortcut is that glob for every target exactly when the prefix holds no wildcard:
  // the shortcut takes the prefix literally.
  lemma ClosingStarsAreTheGlobIff(prefix: Text)
    ensures (forall target :: Denotes(Tokens(prefix + BELOW_ALL), target) <==> BelowOneLine(prefix, target))
            <==> Wildcardless(prefix)
  {
    if Wildcardless(prefix) {
      forall target ensures Denotes(Tokens(prefix + BELOW_ALL), target) <==> BelowOneLine(prefix, target) {
        WildcardlessStarsAreTheGlob(prefix, target);
      }
    } else {
      var target := Instance(Tokens(prefix + BELOW_ALL));
      InstanceIsDenoted(Tokens(prefix + BELOW_ALL));
      InstanceIsWildcardless(prefix + BELOW_ALL);
      ClosingStarsAdmit(prefix, target);
      assert forall u :: u in prefix ==> u in prefix + [SLASH];
      WildcardsAreNotInherited(prefix + [SLASH], target);
      assert Denotes(Tokens(prefix + BELOW_ALL), target) && !BelowOneLine(prefix, target);
    }
  }

  // src/*/** admits src/*/x and not src/a/x, which its glob accepts.
  lemma StarInAClosedScope() returns (scope: Text, literal: Text, matched: Text)
    ensures scope == Ascii("src/*/**") && literal == Ascii("src/*/x") && matched == Ascii("src/a/x")
    ensures Admits(scope, literal) && !Admits(scope, matched) && Denotes(Tokens(scope), matched)
  {
    var prefix := Ascii("src/*");
    scope, literal, matched := Ascii("src/*/**"), Ascii("src/*/x"), Ascii("src/a/x");
    assert scope == prefix + BELOW_ALL && literal == prefix + [SLASH, 0x78];
    ClosingStarsAdmit(prefix, literal);
    ClosingStarsAdmit(prefix, matched);
    assert literal[..|prefix| + 1] == prefix + [SLASH];
    assert matched[4] != prefix[4];
    var source, segment, rest := Ascii("src/"), Ascii("*/**"), Ascii("a/x");
    assert scope == source + segment && matched == source + rest;
    LiteralTokens(source, segment);
    LiteralsDenote(source, Tokens(segment), matched);
    assert matched[|source|..] == rest;
    StarOverOneUnit(segment, rest);
  }

  lemma StarOverOneUnit(glob: Text, s: Text)
    requires glob == Ascii("*/**") && s == Ascii("a/x")
    ensures Denotes(Tokens(glob), s)
  {
    assert glob[1..] == [SLASH] + DOUBLE_STAR && s[1..] == [SLASH] + [0x78];
    var tokens := Tokens(glob[1..]);
    assert tokens == [Literal(SLASH)] + Tokens(DOUBLE_STAR) by { assert glob[1..][1..] == DOUBLE_STAR; }
    assert DOUBLE_STAR[2..] == [] && Tokens([]) == [] && Tokens(DOUBLE_STAR) == [AnyRun];
    AnyRunDenotes([0x78]);
    assert tokens[1..] == [AnyRun] && s[1..][1..] == [0x78];
    assert Denotes(tokens, s[1..]);
    assert Tokens(glob) == [SegmentRun] + tokens && Tokens(glob)[1..] == tokens;
    assert s[..1] == [0x61];
    RunDenotes(Tokens(glob), s, 1);
  }

  lemma RunAfterSlash(s: Text)
    ensures Run(AnyRun, [SLASH] + s) <==> Run(AnyRun, s)
  {
    var t := [SLASH] + s;
    forall i | 0 <= i < |s| ensures t[i + 1] == s[i] {}
    if Run(AnyRun, t) {
      forall i | 0 <= i < |s| ensures !LineTerminator(s[i]) { assert t[i + 1] == s[i]; }
    }
  }
}
