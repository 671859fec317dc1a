/**
 Patterns of section 22.2.1 of ECMA-262, without flags: the part with assertions,
 the dot, escaped syntax characters, classes of single units and the star. Text
 outside this part does not parse, so nothing here gives it another meaning.
 */
module RegExpPattern {
  import opened Prelude
  import opened JsText

  datatype CharSet =
    | NotLineTerminator
    | Exactly(unit: Unit)
    | OneOf(units: seq<Unit>)
    | NoneOf(units: seq<Unit>)
  {
    predicate Contains(u: Unit) {
      match this
      case NotLineTerminator => !LineTerminator(u)
      case Exactly(unit) => u == unit
      case OneOf(units) => u in units
      case NoneOf(units) => u !in units
    }
  }

  datatype Term =
    | AssertStart
    | AssertEnd
    | Single(chars: CharSet)
    | Repeat(chars: CharSet)

  const CARET: Unit := 0x5E
  const DOLLAR: Unit := 0x24
  const PLUS: Unit := 0x2B
  const HYPHEN: Unit := 0x2D
  const BAR: Unit := 0x7C
  const OPEN_PAREN: Unit := 0x28
  const CLOSE_PAREN: Unit := 0x29
  const OPEN_BRACKET: Unit := 0x5B
  const CLOSE_BRACKET: Unit := 0x5D
  const OPEN_BRACE: Unit := 0x7B
  const CLOSE_BRACE: Unit := 0x7D

  predicate SyntaxCharacter(u: Unit) {
    u == CARET || u == DOLLAR || u == BACKSLASH || u == DOT || u == STAR || u == PLUS || u == QUESTION
    || u == OPEN_PAREN || u == CLOSE_PAREN || u == OPEN_BRACKET || u == CLOSE_BRACKET
    || u == OPEN_BRACE || u == CLOSE_BRACE || u == BAR
  }

  predicate StartsQuantifier(s: Text) {
    s != [] && (s[0] == STAR || s[0] == PLUS || s[0] == QUESTION || s[0] == OPEN_BRACE)
  }

  // Single units up to the closing bracket; ranges and escapes are not read.
  function ParseClass(s: Text): (r: Option<(seq<Unit>, Text)>)
    ensures r.Some? ==> |r.value.1| < |s|
  {
    if s == [] || s[0] == BACKSLASH || s[0] == HYPHEN then None
    else if s[0] == CLOSE_BRACKET then Some(([], s[1..]))
    else match ParseClass(s[1..])
      case None => None
      case Some((units, rest)) => Some(([s[0]] + units, rest))
  }

  function ParseAtom(s: Text): (r: Option<(CharSet, Text)>)
    requires s != []
    ensures r.Some? ==> |r.value.1| < |s|
  {
    if s[0] == DOT then Some((NotLineTerminator, s[1..]))
    else if s[0] == BACKSLASH then
      if |s| > 1 && SyntaxCharacter(s[1]) then Some((Exactly(s[1]), s[2..])) else None
    else if s[0] == OPEN_BRACKET then
      var negated := |s| > 1 && s[1] == CARET;
      match ParseClass(if negated then s[2..] else s[1..])
      case None => None
      case Some((units, rest)) => Some((if negated then NoneOf(units) else OneOf(units), rest))
    else if SyntaxCharacter(s[0]) then None
    else Some((Exactly(s[0]), s[1..]))
  }

  function Prefixed(term: Term, terms: Option<seq<Term>>): Option<seq<Term>> {
    if terms.None? then None else Some([term] + terms.value)
  }

  function Parse(s: Text): Option<seq<Term>>
    decreases |s|
  {
    if s == [] then Some([])
    else if s[0] == CARET then Prefixed(AssertStart, Parse(s[1..]))
    else if s[0] == DOLLAR then Prefixed(AssertEnd, Parse(s[1..]))
    else match ParseAtom(s)
      case None => None
      case Some((chars, rest)) =>
        if !StartsQuantifier(rest) then Prefixed(Single(chars), Parse(rest))
        else if rest[0] == STAR && !StartsQuantifier(rest[1..]) then Prefixed(Repeat(chars), Parse(rest[1..]))
        else None
  }

  // The terms match some stretch of the input that begins at the position.
  predicate MatchesAt(terms: seq<Term>, input: Text, at: nat)
    requires at <= |input|
    decreases |terms|, |input| - at
  {
    if terms == [] then true
    else match terms[0]
      case AssertStart => at == 0 && MatchesAt(terms[1..], input, at)
      case AssertEnd => at == |input| && MatchesAt(terms[1..], input, at)
      case Single(chars) => at < |input| && chars.Contains(input[at]) && MatchesAt(terms[1..], input, at + 1)
      case Repeat(chars) =>
        || MatchesAt(terms[1..], input, at)
        || (at < |input| && chars.Contains(input[at]) && MatchesAt(terms, input, at + 1))
  }

  // RegExp.prototype.test
  predicate Test(terms: seq<Term>, input: Text) {
    exists at :: 0 <= at <= |input| && MatchesAt(terms, input, at)
  }

  predicate AllBetween(chars: CharSet, input: Text, start: nat, end: nat)
    requires start <= end <= |input|
  {
    forall i :: start <= i < end ==> chars.Contains(input[i])
  }

  // A starred set takes any run of its units that the remaining terms can follow.
  lemma {:induction false} RepeatTakes(chars: CharSet, rest: seq<Term>, input: Text, at: nat, to: nat)
    requires at <= to <= |input| && AllBetween(chars, input, at, to) && MatchesAt(rest, input, to)
    ensures MatchesAt([Repeat(chars)] + rest, input, at)
    decreases |input| - at
  {
    assert ([Repeat(chars)] + rest)[1..] == rest;
    if at < to { RepeatTakes(chars, rest, input, at + 1, to); }
  }

  lemma {:induction false} RepeatEnds(chars: CharSet, rest: seq<Term>, input: Text, at: nat) returns (to: nat)
    requires at <= |input| && MatchesAt([Repeat(chars)] + rest, input, at)
    ensures at <= to <= |input| && AllBetween(chars, input, at, to) && MatchesAt(rest, input, to)
    decreases |input| - at
  {
    assert ([Repeat(chars)] + rest)[1..] == rest;
    if MatchesAt(rest, input, at) {
      to := at;
    } else {
      to := RepeatEnds(chars, rest, input, at + 1);
    }
  }
}
