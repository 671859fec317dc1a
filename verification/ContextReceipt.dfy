/**
 Canonical serialisation: the printer whose output is digested as identity, a
 reader that inverts it, and the proof that printing identifies exactly the
 values that mean the same.
 */
module ContextReceipt {
  import opened Prelude
  import opened JsText
  import opened Sorting

  // A value as JavaScript holds it. A finite number is its decimal text, which
  // determines it; an object is its own keys in insertion order.
  datatype Json =
    | JUndefined
    | JNull
    | JBool(b: bool)
    | JNumber(text: Text)
    | JNonFinite
    | JString(s: Text)
    | JArray(items: seq<Json>)
    | JObject(members: seq<Member>)

  datatype Member = Member(key: Text, value: Json)

  // What a value means: members have no order, undefined is not a member.
  datatype Tree =
    | TNull
    | TBool(b: bool)
    | TNumber(text: Text)
    | TString(s: Text)
    | TArray(items: seq<Tree>)
    | TObject(members: map<Text, Tree>)

  const QUOTE: Unit := 0x22
  const COMMA: Unit := 0x2C
  const COLON: Unit := 0x3A
  const OPEN_ARRAY: Unit := 0x5B
  const CLOSE_ARRAY: Unit := 0x5D
  const OPEN_OBJECT: Unit := 0x7B
  const CLOSE_OBJECT: Unit := 0x7D
  const NULL_TEXT: Text := [0x6E, 0x75, 0x6C, 0x6C]
  const TRUE_TEXT: Text := [0x74, 0x72, 0x75, 0x65]
  const FALSE_TEXT: Text := [0x66, 0x61, 0x6C, 0x73, 0x65]

  predicate Digit(u: Unit) {
    0x30 <= u <= 0x39
  }

  // Digits, sign, point and exponent mark: the units of a number's text.
  predicate NumberUnit(u: Unit) {
    Digit(u) || u == 0x2B || u == 0x2D || u == 0x2E || u == 0x45 || u == 0x65
  }

  predicate NumberText(t: Text) {
    t != [] && (Digit(t[0]) || t[0] == 0x2D) && forall i :: 0 <= i < |t| ==> NumberUnit(t[i])
  }

  predicate KeysDistinct(ms: seq<Member>) {
    forall i, j :: 0 <= i < j < |ms| ==> ms[i].key != ms[j].key
  }

  // A value the runtime can hold: own keys are distinct at every level.
  predicate WellFormed(v: Json) {
    match v
    case JNumber(t) => NumberText(t)
    case JArray(items) => forall x :: x in items ==> WellFormed(x)
    case JObject(members) =>
      KeysDistinct(members) && forall m :: m in members ==> WellFormed(m.value)
    case _ => true
  }

  // ---- Meaning ----

  function Meaning(v: Json): Tree
    decreases v
  {
    match v
    case JUndefined => TNull
    case JNull => TNull
    case JNonFinite => TNull
    case JBool(b) => TBool(b)
    case JNumber(t) => TNumber(t)
    case JString(s) => TString(s)
    case JArray(items) => TArray(Meanings(items))
    case JObject(members) => TObject(MeaningOf(v, members))
  }

  function Meanings(items: seq<Json>): seq<Tree>
    decreases items
  {
    if items == [] then [] else [Meaning(items[0])] + Meanings(items[1..])
  }

  function MeaningOf(v: Json, ms: seq<Member>): map<Text, Tree>
    requires v.JObject? && forall m :: m in ms ==> m in v.members
    decreases v, |ms|
  {
    if ms == [] then map[]
    else
      var rest := MeaningOf(v, ms[1..]);
      if ms[0].value.JUndefined? then rest
      else
        assert ms[0] in v.members;
        map[ms[0].key := Meaning(ms[0].value)] + rest
  }

  // ---- Printing ----

  function HexDigit(n: nat): Unit
    requires n < 16
  {
    if n < 10 then 0x30 + n else 0x61 + n - 10
  }

  function UnicodeEscape(u: Unit): Text {
    [BACKSLASH, 0x75, HexDigit(u / 16 / 16 / 16), HexDigit(u / 16 / 16 % 16), HexDigit(u / 16 % 16), HexDigit(u % 16)]
  }

  predicate HighSurrogate(u: Unit) {
    0xD800 <= u <= 0xDBFF
  }

  predicate LowSurrogate(u: Unit) {
    0xDC00 <= u <= 0xDFFF
  }

  // The one-letter escapes, by the unit they stand for.
  function ShortEscape(u: Unit): Option<Unit> {
    if u == 0x08 then Some(0x62)
    else if u == 0x09 then Some(0x74)
    else if u == 0x0A then Some(0x6E)
    else if u == 0x0C then Some(0x66)
    else if u == 0x0D then Some(0x72)
    else if u == QUOTE || u == BACKSLASH then Some(u)
    else None
  }

  function EscapedUnit(u: Unit): Text {
    if ShortEscape(u).Some? then [BACKSLASH, ShortEscape(u).value]
    else if u < 0x20 || HighSurrogate(u) || LowSurrogate(u) then UnicodeEscape(u)
    else [u]
  }

  predicate StartsPair(s: Text) {
    |s| > 1 && HighSurrogate(s[0]) && LowSurrogate(s[1])
  }

  // Control units and lone surrogates are escaped; a surrogate pair is not.
  function Escaped(s: Text): Text {
    if s == [] then []
    else if StartsPair(s) then [s[0], s[1]] + Escaped(s[2..])
    else EscapedUnit(s[0]) + Escaped(s[1..])
  }

  function Quoted(s: Text): Text {
    [QUOTE] + Escaped(s) + [QUOTE]
  }

  predicate MemberLe(left: Member, right: Member) {
    TextLe(left.key, right.key)
  }

  function Defined(ms: seq<Member>): seq<Member> {
    if ms == [] then []
    else (if ms[0].value.JUndefined? then [] else [ms[0]]) + Defined(ms[1..])
  }

  function Print(v: Json): Text
    decreases v
  {
    match v
    case JUndefined => NULL_TEXT   // only ever an array item here
    case JNull => NULL_TEXT
    case JNonFinite => NULL_TEXT
    case JBool(b) => if b then TRUE_TEXT else FALSE_TEXT
    case JNumber(t) => t
    case JString(s) => Quoted(s)
    case JArray(items) =>
      [OPEN_ARRAY] + Join(Prints(items), COMMA) + [CLOSE_ARRAY]
    case JObject(members) =>
      SortKeepsMembers(members);
      [OPEN_OBJECT] + Join(Pairs(v, Defined(Sort(members, MemberLe))), COMMA) + [CLOSE_OBJECT]
  }

  function Prints(items: seq<Json>): seq<Text>
    decreases items
  {
    if items == [] then [] else [Print(items[0])] + Prints(items[1..])
  }

  function Pairs(v: Json, ms: seq<Member>): seq<Text>
    requires v.JObject? && forall m :: m in ms ==> m in v.members
    decreases v, |ms|
  {
    if ms == [] then []
    else
      assert ms[0] in v.members;
      [Quoted(ms[0].key) + [COLON] + Print(ms[0].value)] + Pairs(v, ms[1..])
  }

  lemma MembersOrdered()
    ensures TotalPreorder(MemberLe)
  {
    forall x: Member, y: Member, z: Member
      ensures (MemberLe(x, y) || MemberLe(y, x)) && (MemberLe(x, y) && MemberLe(y, z) ==> MemberLe(x, z))
    {
      TextLeTotal(x.key, y.key);
      if MemberLe(x, y) && MemberLe(y, z) { TextLeTransitive(x.key, y.key, z.key); }
    }
  }

  lemma {:induction false} DefinedMembers(ms: seq<Member>)
    ensures forall m :: m in Defined(ms) <==> m in ms && !m.value.JUndefined?
  {
    if ms != [] {
      DefinedMembers(ms[1..]);
      assert ms == [ms[0]] + ms[1..];
    }
  }

  lemma SortKeepsMembers(members: seq<Member>)
    ensures forall m :: m in Defined(Sort(members, MemberLe)) <==> m in members && !m.value.JUndefined?
  {
    MembersOrdered();
    SortSorts(members, MemberLe);
    DefinedMembers(Sort(members, MemberLe));
  }

  // ---- Reading ----

  function HexValue(u: Unit): (r: Option<nat>)
    ensures r.Some? ==> r.value < 16
  {
    if Digit(u) then Some(u - 0x30)
    else if 0x61 <= u <= 0x66 then Some(u - 0x61 + 10)
    else if 0x41 <= u <= 0x46 then Some(u - 0x41 + 10)
    else None
  }

  function Unescape(u: Unit): Option<Unit> {
    if u == 0x62 then Some(0x08)
    else if u == 0x74 then Some(0x09)
    else if u == 0x6E then Some(0x0A)
    else if u == 0x66 then Some(0x0C)
    else if u == 0x72 then Some(0x0D)
    else if u == QUOTE || u == BACKSLASH || u == SLASH then Some(u)
    else None
  }

  // A unit written as a backslash, the letter u and four hexadecimal digits.
  function UnicodeUnit(s: Text): Option<Unit> {
    if |s| >= 6 && s[1] == 0x75 && HexValue(s[2]).Some? && HexValue(s[3]).Some?
       && HexValue(s[4]).Some? && HexValue(s[5]).Some?
    then Some(HexValue(s[2]).value * 4096 + HexValue(s[3]).value * 256
              + HexValue(s[4]).value * 16 + HexValue(s[5]).value)
    else None
  }

  function Prefixed(u: Unit, r: Option<(Text, Text)>): (p: Option<(Text, Text)>) {
    match r
    case None => None
    case Some((t, rest)) => Some(([u] + t, rest))
  }

  // The rest of a string, section 7 of RFC 8259, up to its closing quote.
  function ReadString(s: Text): (r: Option<(Text, Text)>)
    ensures r.Some? ==> |r.value.1| < |s|
  {
    if s == [] then None
    else if s[0] == QUOTE then Some(([], s[1..]))
    else if s[0] < 0x20 then None
    else if s[0] != BACKSLASH then Prefixed(s[0], ReadString(s[1..]))
    else if |s| >= 2 && Unescape(s[1]).Some? then Prefixed(Unescape(s[1]).value, ReadString(s[2..]))
    else if UnicodeUnit(s).Some? then Prefixed(UnicodeUnit(s).value, ReadString(s[6..]))
    else None
  }

  function NumberRun(s: Text): Text {
    if s != [] && NumberUnit(s[0]) then [s[0]] + NumberRun(s[1..]) else []
  }

  lemma {:induction false} NumberRunIsPrefix(s: Text)
    ensures NumberRun(s) <= s
  {
    if s != [] && NumberUnit(s[0]) { NumberRunIsPrefix(s[1..]); }
  }

  function Read(s: Text): (r: Option<(Tree, Text)>)
    ensures r.Some? ==> |r.value.1| < |s|
    decreases |s|, 1
  {
    if s == [] then None
    else if NULL_TEXT <= s then Some((TNull, s[4..]))
    else if TRUE_TEXT <= s then Some((TBool(true), s[4..]))
    else if FALSE_TEXT <= s then Some((TBool(false), s[5..]))
    else if s[0] == QUOTE then
      match ReadString(s[1..])
      case None => None
      case Some((t, rest)) => Some((TString(t), rest))
    else if s[0] == OPEN_ARRAY then
      if |s| > 1 && s[1] == CLOSE_ARRAY then Some((TArray([]), s[2..]))
      else match ReadItems(s[1..])
        case None => None
        case Some((items, rest)) => Some((TArray(items), rest))
    else if s[0] == OPEN_OBJECT then
      if |s| > 1 && s[1] == CLOSE_OBJECT then Some((TObject(map[]), s[2..]))
      else match ReadMembers(s[1..])
        case None => None
        case Some((members, rest)) => Some((TObject(members), rest))
    else if Digit(s[0]) || s[0] == 0x2D then
      NumberRunIsPrefix(s);
      Some((TNumber(NumberRun(s)), s[|NumberRun(s)|..]))
    else None
  }

  function ReadItems(s: Text): (r: Option<(seq<Tree>, Text)>)
    ensures r.Some? ==> |r.value.1| < |s|
    decreases |s|, 2
  {
    match Read(s)
    case None => None
    case Some((item, rest)) =>
      if rest == [] then None
      else if rest[0] == CLOSE_ARRAY then Some(([item], rest[1..]))
      else if rest[0] != COMMA then None
      else match ReadItems(rest[1..])
        case None => None
        case Some((items, rest')) => Some(([item] + items, rest'))
  }

  function ReadMembers(s: Text): (r: Option<(map<Text, Tree>, Text)>)
    ensures r.Some? ==> |r.value.1| < |s|
    decreases |s|, 2
  {
    if s == [] || s[0] != QUOTE then None
    else match ReadString(s[1..])
      case None => None
      case Some((key, afterKey)) =>
        if afterKey == [] || afterKey[0] != COLON then None
        else match Read(afterKey[1..])
          case None => None
          case Some((value, rest)) =>
            if rest == [] then None
            else if rest[0] == CLOSE_OBJECT then Some((map[key := value], rest[1..]))
            else if rest[0] != COMMA then None
            else match ReadMembers(rest[1..])
              case None => None
              case Some((members, rest')) => Some((map[key := value] + members, rest'))
  }

  // ---- Reading inverts printing ----

  lemma HexDigitReads(n: nat)
    requires n < 16
    ensures HexValue(HexDigit(n)) == Some(n)
  {
  }

  lemma UnicodeReads(u: Unit, tail: Text)
    ensures UnicodeUnit(UnicodeEscape(u) + tail) == Some(u)
  {
    var p := u / 16;
    var q := p / 16;
    var r := q / 16;
    HexDigitReads(r);
    HexDigitReads(q % 16);
    HexDigitReads(p % 16);
    HexDigitReads(u % 16);
    var s := UnicodeEscape(u) + tail;
    assert s[1] == 0x75 && s[2] == HexDigit(r) && s[3] == HexDigit(q % 16) && s[4] == HexDigit(p % 16)
           && s[5] == HexDigit(u % 16);
  }

  lemma PlainUnitReads(u: Unit, tail: Text)
    requires u >= 0x20 && u != QUOTE && u != BACKSLASH
    ensures ReadString([u] + tail) == Prefixed(u, ReadString(tail))
  {
    assert ([u] + tail)[0] == u && ([u] + tail)[1..] == tail;
  }

  lemma EscapedUnitReads(u: Unit, tail: Text)
    ensures ReadString(EscapedUnit(u) + tail) == Prefixed(u, ReadString(tail))
  {
    var head := EscapedUnit(u);
    var s := head + tail;
    assert s[|head|..] == tail;
    if ShortEscape(u).Some? {
      assert s[0] == BACKSLASH && s[1] == ShortEscape(u).value;
    } else if head == [u] {
      PlainUnitReads(u, tail);
    } else {
      UnicodeReads(u, tail);
      assert s[0] == BACKSLASH && s[1] == 0x75;
    }
  }

  lemma Associates(a: Text, b: Text, c: Text)
    ensures a + b + c == a + (b + c)
  {
  }

  lemma Regroup(a: Text, b: Text, c: Text, d: Text)
    ensures a + b + c + d == a + (b + c + d)
  {
  }

  lemma {:induction false} StringReads(s: Text, rest: Text)
    ensures ReadString(Escaped(s) + [QUOTE] + rest) == Some((s, rest))
  {
    if s == [] {
      assert (Escaped(s) + [QUOTE] + rest)[1..] == rest;
    } else if StartsPair(s) {
      StringReads(s[2..], rest);
      PairReads(s, Escaped(s[2..]) + [QUOTE] + rest);
      Regroup([s[0], s[1]], Escaped(s[2..]), [QUOTE], rest);
      assert s == [s[0]] + ([s[1]] + s[2..]);
    } else {
      StringReads(s[1..], rest);
      EscapedUnitReads(s[0], Escaped(s[1..]) + [QUOTE] + rest);
      Regroup(EscapedUnit(s[0]), Escaped(s[1..]), [QUOTE], rest);
      assert s == [s[0]] + s[1..];
    }
  }

  lemma PairReads(s: Text, tail: Text)
    requires StartsPair(s)
    ensures ReadString([s[0], s[1]] + tail) == Prefixed(s[0], Prefixed(s[1], ReadString(tail)))
  {
    PlainUnitReads(s[1], tail);
    PlainUnitReads(s[0], [s[1]] + tail);
    assert [s[0], s[1]] + tail == [s[0]] + ([s[1]] + tail);
  }

  // What may follow a value: nothing that could continue a number.
  predicate Ends(rest: Text) {
    rest == [] || !NumberUnit(rest[0])
  }

  lemma {:induction false} NumberReads(t: Text, rest: Text)
    requires forall i :: 0 <= i < |t| ==> NumberUnit(t[i])
    requires Ends(rest)
    ensures NumberRun(t + rest) == t
  {
    if t == [] {
      assert t + rest == rest;
    } else {
      NumberReads(t[1..], rest);
      assert (t + rest)[1..] == t[1..] + rest;
    }
  }

  lemma {:induction false} PrintReads(v: Json, rest: Text)
    requires WellFormed(v) && Ends(rest)
    ensures Read(Print(v) + rest) == Some((Meaning(v), rest))
    decreases v, 3
  {
    match v
    case JArray(items) => ArrayReads(v, rest);
    case JObject(members) => ObjectReads(v, rest);
    case JString(s) => QuotedReads(s, rest);
    case JNumber(t) =>
      NumberReads(t, rest);
      assert (t + rest)[0] == t[0] && (t + rest)[|t|..] == rest;
    case JBool(b) =>
      assert (Print(v) + rest)[0] == Print(v)[0] && (Print(v) + rest)[if b then 4 else 5..] == rest;
    case _ =>
      assert (NULL_TEXT + rest)[4..] == rest;
  }

  lemma QuotedReads(s: Text, rest: Text)
    ensures Read(Quoted(s) + rest) == Some((TString(s), rest))
  {
    StringReads(s, rest);
    assert (Quoted(s) + rest)[0] == QUOTE;
    assert (Quoted(s) + rest)[1..] == Escaped(s) + [QUOTE] + rest;
  }

  lemma {:induction false} ArrayReads(v: Json, rest: Text)
    requires v.JArray? && WellFormed(v)
    ensures Read(Print(v) + rest) == Some((Meaning(v), rest))
    decreases v, 2
  {
    var items := v.items;
    if items == [] {
      assert Print(v) == [OPEN_ARRAY, CLOSE_ARRAY];
      EmptyBracketsRead(rest);
    } else {
      ItemsRead(v, items, rest);
      PrintStarts(items[0]);
      JoinStarts(Prints(items));
      BracketsRead(Join(Prints(items), COMMA), rest);
    }
  }

  lemma {:induction false} ObjectReads(v: Json, rest: Text)
    requires v.JObject? && WellFormed(v)
    ensures Read(Print(v) + rest) == Some((Meaning(v), rest))
    decreases v, 2
  {
    var ms := Defined(Sort(v.members, MemberLe));
    SortKeepsMembers(v.members);
    SortedMeaning(v);
    var parts := Pairs(v, ms);
    if ms == [] {
      assert Print(v) == [OPEN_OBJECT, CLOSE_OBJECT];
      assert MeaningOf(v, ms) == map[];
      EmptyBracesRead(rest);
    } else {
      MembersRead(v, ms, rest);
      JoinStarts(parts);
      BracesRead(Join(parts, COMMA), rest);
    }
  }

  lemma EmptyBracketsRead(rest: Text)
    ensures Read([OPEN_ARRAY, CLOSE_ARRAY] + rest) == Some((TArray([]), rest))
  {
    var s := [OPEN_ARRAY, CLOSE_ARRAY] + rest;
    assert s[0] == OPEN_ARRAY && s[1] == CLOSE_ARRAY && s[2..] == rest;
  }

  lemma BracketsRead(body: Text, rest: Text)
    requires body != [] && body[0] != CLOSE_ARRAY && ReadItems(body + [CLOSE_ARRAY] + rest).Some?
    ensures (var (items, after) := ReadItems(body + [CLOSE_ARRAY] + rest).value;
             Read([OPEN_ARRAY] + body + [CLOSE_ARRAY] + rest) == Some((TArray(items), after)))
  {
    var s := [OPEN_ARRAY] + body + [CLOSE_ARRAY] + rest;
    Regroup([OPEN_ARRAY], body, [CLOSE_ARRAY], rest);
    assert s[0] == OPEN_ARRAY && s[1] == body[0] && s[1..] == body + [CLOSE_ARRAY] + rest;
  }

  lemma EmptyBracesRead(rest: Text)
    ensures Read([OPEN_OBJECT, CLOSE_OBJECT] + rest) == Some((TObject(map[]), rest))
  {
    var s := [OPEN_OBJECT, CLOSE_OBJECT] + rest;
    assert s[0] == OPEN_OBJECT && s[1] == CLOSE_OBJECT && s[2..] == rest;
  }

  lemma BracesRead(body: Text, rest: Text)
    requires body != [] && body[0] == QUOTE && ReadMembers(body + [CLOSE_OBJECT] + rest).Some?
    ensures (var (members, after) := ReadMembers(body + [CLOSE_OBJECT] + rest).value;
             Read([OPEN_OBJECT] + body + [CLOSE_OBJECT] + rest) == Some((TObject(members), after)))
  {
    var s := [OPEN_OBJECT] + body + [CLOSE_OBJECT] + rest;
    Regroup([OPEN_OBJECT], body, [CLOSE_OBJECT], rest);
    assert s[0] == OPEN_OBJECT && s[1] == QUOTE && s[1..] == body + [CLOSE_OBJECT] + rest;
  }

  // No printed value begins with a closing bracket.
  lemma PrintStarts(v: Json)
    requires WellFormed(v)
    ensures Print(v) != [] && Print(v)[0] != CLOSE_ARRAY
  {
  }

  lemma JoinStarts(parts: seq<Text>)
    requires parts != [] && parts[0] != []
    ensures Join(parts, COMMA) != [] && Join(parts, COMMA)[0] == parts[0][0]
  {
  }

  lemma ItemStep(s: Text, item: Tree, after: Text)
    requires Read(s) == Some((item, after)) && after != []
    ensures after[0] == CLOSE_ARRAY ==> ReadItems(s) == Some(([item], after[1..]))
    ensures after[0] == COMMA && ReadItems(after[1..]).Some? ==>
              var (items, rest) := ReadItems(after[1..]).value;
              ReadItems(s) == Some(([item] + items, rest))
  {
  }

  // The printed parts, up to the close: the first, then the close or a comma and the others.
  function Remaining(parts: seq<Text>, close: Unit, rest: Text): Text
    requires parts != []
  {
    if |parts| == 1 then [close] + rest else [COMMA] + (Join(parts[1..], COMMA) + [close] + rest)
  }

  lemma Shift(a: Text, u: Unit, b: Text)
    ensures a + [u] + b == a + ([u] + b) && ([u] + b)[1..] == b
  {
  }

  lemma JoinStep(parts: seq<Text>, close: Unit, rest: Text)
    requires parts != []
    ensures Join(parts, COMMA) + [close] + rest == parts[0] + Remaining(parts, close, rest)
    ensures |parts| > 1 ==> Remaining(parts, close, rest)[1..] == Join(parts[1..], COMMA) + [close] + rest
    ensures |parts| == 1 ==> Remaining(parts, close, rest)[1..] == rest
  {
    if |parts| == 1 {
      Shift(parts[0], close, rest);
    } else {
      Regroup(parts[0] + [COMMA], Join(parts[1..], COMMA), [close], rest);
      Shift(parts[0], COMMA, Join(parts[1..], COMMA) + [close] + rest);
    }
  }

  lemma {:induction false} ItemsRead(v: Json, items: seq<Json>, rest: Text)
    requires items != [] && forall x :: x in items ==> x < v && WellFormed(x)
    ensures ReadItems(Join(Prints(items), COMMA) + [CLOSE_ARRAY] + rest) == Some((Meanings(items), rest))
    decreases v, 1, |items|
  {
    var others, parts := items[1..], Prints(items);
    PrintsLength(items);
    assert items[0] in items && forall x :: x in others ==> x in items;
    var after := Remaining(parts, CLOSE_ARRAY, rest);
    PrintReads(items[0], after);
    JoinStep(parts, CLOSE_ARRAY, rest);
    ItemStep(Print(items[0]) + after, Meaning(items[0]), after);
    if others == [] {
      assert Meanings(items) == [Meaning(items[0])];
    } else {
      ItemsRead(v, others, rest);
    }
  }

  lemma {:induction false} PrintsLength(items: seq<Json>)
    ensures |Prints(items)| == |items|
  {
    if items != [] { PrintsLength(items[1..]); }
  }

  // A printed key and colon are read as the key; the value's text is left.
  lemma KeyReads(key: Text, body: Text)
    ensures (var s := Quoted(key) + [COLON] + body;
             s != [] && s[0] == QUOTE && ReadString(s[1..]) == Some((key, [COLON] + body)))
  {
    StringReads(key, [COLON] + body);
    Shift(Quoted(key), COLON, body);
    assert (Quoted(key) + ([COLON] + body))[1..] == Escaped(key) + [QUOTE] + ([COLON] + body);
  }

  lemma MemberStep(s: Text, key: Text, body: Text, after: Text, value: Tree)
    requires s != [] && s[0] == QUOTE && ReadString(s[1..]) == Some((key, [COLON] + body))
    requires Read(body) == Some((value, after)) && after != []
    ensures after[0] == CLOSE_OBJECT ==> ReadMembers(s) == Some((map[key := value], after[1..]))
    ensures after[0] == COMMA && ReadMembers(after[1..]).Some? ==>
              var (members, rest) := ReadMembers(after[1..]).value;
              ReadMembers(s) == Some((map[key := value] + members, rest))
  {
    assert ([COLON] + body)[1..] == body;
  }

  lemma {:induction false} MembersRead(v: Json, ms: seq<Member>, rest: Text)
    requires v.JObject? && WellFormed(v) && ms != []
    requires forall m :: m in ms ==> m in v.members && !m.value.JUndefined?
    ensures ReadMembers(Join(Pairs(v, ms), COMMA) + [CLOSE_OBJECT] + rest) == Some((MeaningOf(v, ms), rest))
    decreases v, 1, |ms|
  {
    var others, parts := ms[1..], Pairs(v, ms);
    var key, value := ms[0].key, ms[0].value;
    PairsLength(v, ms);
    assert ms[0] in ms && forall m :: m in others ==> m in ms;
    var after := Remaining(parts, CLOSE_OBJECT, rest);
    PrintReads(value, after);
    JoinStep(parts, CLOSE_OBJECT, rest);
    var body := Print(value) + after;
    KeyReads(key, body);
    MemberStep(Quoted(key) + [COLON] + body, key, body, after, Meaning(value));
    Associates(Quoted(key) + [COLON], Print(value), after);
    assert parts[0] == Quoted(key) + [COLON] + Print(value);
    if others == [] {
      assert MeaningOf(v, ms) == map[key := Meaning(value)];
    } else {
      MembersRead(v, others, rest);
    }
  }

  lemma {:induction false} PairsLength(v: Json, ms: seq<Member>)
    requires v.JObject? && forall m :: m in ms ==> m in v.members
    ensures |Pairs(v, ms)| == |ms|
    decreases |ms|
  {
    if ms != [] { PairsLength(v, ms[1..]); }
  }

  // ---- The meaning of an object does not depend on the order of its members ----

  lemma {:induction false} MeaningOfAt(v: Json, ms: seq<Member>)
    requires v.JObject? && forall m :: m in ms ==> m in v.members
    requires forall m, m' :: m in ms && m' in ms && m.key == m'.key ==> m == m'
    ensures forall key :: key in MeaningOf(v, ms) <==> exists m :: m in ms && m.key == key && !m.value.JUndefined?
    ensures forall m :: m in ms && !m.value.JUndefined? ==>
              m.key in MeaningOf(v, ms) && MeaningOf(v, ms)[m.key] == Meaning(m.value)
    decreases |ms|
  {
    if ms != [] {
      MeaningOfAt(v, ms[1..]);
      assert ms == [ms[0]] + ms[1..];
    }
  }

  lemma DistinctKeys(members: seq<Member>)
    requires KeysDistinct(members)
    ensures forall m, m' :: m in members && m' in members && m.key == m'.key ==> m == m'
  {
  }

  lemma SortedMeaning(v: Json)
    requires v.JObject? && WellFormed(v)
    ensures (var ms := Defined(Sort(v.members, MemberLe));
             (forall m :: m in ms ==> m in v.members) && MeaningOf(v, ms) == MeaningOf(v, v.members))
  {
    var ms := Defined(Sort(v.members, MemberLe));
    SortKeepsMembers(v.members);
    DistinctKeys(v.members);
    MeaningOfAt(v, ms);
    MeaningOfAt(v, v.members);
    forall key ensures key in MeaningOf(v, ms) <==> key in MeaningOf(v, v.members) {}
    forall key | key in MeaningOf(v, ms) ensures MeaningOf(v, ms)[key] == MeaningOf(v, v.members)[key] {
      var m :| m in ms && m.key == key && !m.value.JUndefined?;
    }
  }

  // ---- Printing identifies exactly the values that mean the same ----

  ghost predicate StrictKeys(ms: seq<Member>) {
    forall i, j :: 0 <= i < j < |ms| ==> TextLe(ms[i].key, ms[j].key) && ms[i].key != ms[j].key
  }

  ghost predicate Listed(v: Json, ms: seq<Member>) {
    v.JObject? && StrictKeys(ms) && forall m :: m in ms ==> m in v.members && !m.value.JUndefined?
  }

  lemma {:induction false} DefinedIsStrict(ms: seq<Member>)
    requires StrictKeys(ms)
    ensures StrictKeys(Defined(ms))
  {
    if ms != [] {
      DefinedIsStrict(ms[1..]);
      DefinedMembers(ms[1..]);
    }
  }

  lemma {:induction false} InsertKeepsKeysDistinct(x: Member, xs: seq<Member>)
    requires KeysDistinct([x] + xs)
    ensures KeysDistinct(Insert(x, xs, MemberLe))
    ensures forall m :: m in Insert(x, xs, MemberLe) <==> m == x || m in xs
  {
    forall k | 0 <= k < |xs| ensures xs[k].key != x.key {
      assert ([x] + xs)[0] == x && ([x] + xs)[k + 1] == xs[k];
    }
    forall i, j | 0 <= i < j < |xs| ensures xs[i].key != xs[j].key {
      assert ([x] + xs)[i + 1] == xs[i] && ([x] + xs)[j + 1] == xs[j];
    }
    if xs != [] && !MemberLe(x, xs[0]) {
      InsertKeepsKeysDistinct(x, xs[1..]);
      assert xs == [xs[0]] + xs[1..];
      forall m | m in Insert(x, xs[1..], MemberLe) ensures m.key != xs[0].key {
        if m != x { assert m in xs[1..]; }
      }
    }
  }

  lemma {:induction false} SortKeepsKeysDistinct(xs: seq<Member>)
    requires KeysDistinct(xs)
    ensures KeysDistinct(Sort(xs, MemberLe))
    ensures forall m :: m in Sort(xs, MemberLe) <==> m in xs
  {
    if xs != [] {
      SortKeepsKeysDistinct(xs[1..]);
      forall m | m in Sort(xs[1..], MemberLe) ensures m.key != xs[0].key {
        assert m in xs[1..];
      }
      InsertKeepsKeysDistinct(xs[0], Sort(xs[1..], MemberLe));
      assert xs == [xs[0]] + xs[1..];
    }
  }

  lemma SortedIsListed(v: Json)
    requires v.JObject? && WellFormed(v)
    ensures Listed(v, Defined(Sort(v.members, MemberLe)))
  {
    MembersOrdered();
    SortSorts(v.members, MemberLe);
    SortKeepsKeysDistinct(v.members);
    DefinedIsStrict(Sort(v.members, MemberLe));
    SortKeepsMembers(v.members);
  }

  lemma {:induction false} SameMeaningPrintsTheSame(a: Json, b: Json)
    requires WellFormed(a) && WellFormed(b) && Meaning(a) == Meaning(b)
    ensures Print(a) == Print(b)
    decreases a, 1
  {
    match a
    case JArray(items) => SameItems(a, items, b.items);
    case JObject(members) =>
      SortedMeaning(a);
      SortedMeaning(b);
      SortedIsListed(a);
      SortedIsListed(b);
      SameMembers(a, Defined(Sort(a.members, MemberLe)), b, Defined(Sort(b.members, MemberLe)));
    case _ =>
  }

  lemma {:induction false} SameItems(a: Json, xs: seq<Json>, ys: seq<Json>)
    requires forall x :: x in xs ==> x < a && WellFormed(x)
    requires forall y :: y in ys ==> WellFormed(y)
    requires Meanings(xs) == Meanings(ys)
    ensures Prints(xs) == Prints(ys)
    decreases a, 0, |xs|
  {
    if xs != [] && ys != [] {
      assert xs[0] in xs && ys[0] in ys;
      assert Meanings(xs)[1..] == Meanings(xs[1..]) && Meanings(ys)[1..] == Meanings(ys[1..]);
      assert Meanings(xs)[0] == Meaning(xs[0]) && Meanings(ys)[0] == Meaning(ys[0]);
      SameMeaningPrintsTheSame(xs[0], ys[0]);
      assert (forall x :: x in xs[1..] ==> x in xs) && forall y :: y in ys[1..] ==> y in ys;
      SameItems(a, xs[1..], ys[1..]);
    }
  }

  // The first key of a sorted list is the least key of its meaning.
  lemma LeastKey(v: Json, ms: seq<Member>, key: Text)
    requires Listed(v, ms) && key in MeaningOf(v, ms)
    ensures ms != [] && TextLe(ms[0].key, key)
  {
    TextLeTotal(key, key);
    MeaningOfAt(v, ms);
    var m :| m in ms && m.key == key;
    var i :| 0 <= i < |ms| && ms[i] == m;
  }

  lemma OthersListed(v: Json, ms: seq<Member>)
    requires Listed(v, ms) && ms != []
    ensures ms[0] in v.members && !ms[0].value.JUndefined? && Listed(v, ms[1..])
    ensures forall m :: m in ms[1..] ==> m.key != ms[0].key
  {
    var others := ms[1..];
    assert ms[0] in ms;
    forall m | m in others ensures m in ms && m.key != ms[0].key {
      var i :| 0 <= i < |others| && others[i] == m;
      assert ms[i + 1] == m;
    }
    forall i, j | 0 <= i < j < |others|
      ensures TextLe(others[i].key, others[j].key) && others[i].key != others[j].key
    {
      assert others[i] == ms[i + 1] && others[j] == ms[j + 1];
    }
  }

  lemma WithoutFirst<K, V>(key: K, value: V, rest: map<K, V>)
    requires key !in rest
    ensures (map[key := value] + rest) - {key} == rest && (map[key := value] + rest)[key] == value
  {
  }

  lemma FirstMember(v: Json, ms: seq<Member>)
    requires Listed(v, ms) && ms != []
    ensures ms[0].key in MeaningOf(v, ms) && MeaningOf(v, ms)[ms[0].key] == Meaning(ms[0].value)
    ensures Listed(v, ms[1..]) && MeaningOf(v, ms[1..]) == MeaningOf(v, ms) - {ms[0].key}
  {
    OthersListed(v, ms);
    MeaningOfAt(v, ms[1..]);
    WithoutFirst(ms[0].key, Meaning(ms[0].value), MeaningOf(v, ms[1..]));
  }

  lemma {:induction false} SameMembers(a: Json, xs: seq<Member>, b: Json, ys: seq<Member>)
    requires WellFormed(a) && WellFormed(b) && Listed(a, xs) && Listed(b, ys)
    requires MeaningOf(a, xs) == MeaningOf(b, ys)
    ensures Pairs(a, xs) == Pairs(b, ys)
    decreases a, 0, |xs|
  {
    if xs == [] {
      if ys != [] { FirstMember(b, ys); assert false; }
    } else {
      FirstMember(a, xs);
      LeastKey(b, ys, xs[0].key);
      FirstMember(b, ys);
      LeastKey(a, xs, ys[0].key);
      TextLeTotal(xs[0].key, ys[0].key);
      assert xs[0] in xs && ys[0] in ys;
      SameMeaningPrintsTheSame(xs[0].value, ys[0].value);
      SameMembers(a, xs[1..], b, ys[1..]);
    }
  }

  // What the serialiser answers: undefined, alone, has no text.
  function Serialised(v: Json): Option<Text> {
    if v.JUndefined? then None else Some(Print(v))
  }

  lemma SerialisedIdentifiesMeaning(a: Json, b: Json)
    requires WellFormed(a) && WellFormed(b)
    ensures Serialised(a) == Serialised(b) <==> a.JUndefined? == b.JUndefined? && Meaning(a) == Meaning(b)
  {
    PrintReads(a, []);
    PrintReads(b, []);
    assert Print(a) + [] == Print(a) && Print(b) + [] == Print(b);
    if Meaning(a) == Meaning(b) { SameMeaningPrintsTheSame(a, b); }
  }

  // A digest of the text is an identity of the meaning, for any digest without collisions.
  lemma DigestIsIdentity<Digest(!new)>(sha256: Text -> Digest, a: Json, b: Json)
    requires WellFormed(a) && WellFormed(b) && !a.JUndefined? && !b.JUndefined?
    requires forall s, t :: sha256(s) == sha256(t) ==> s == t
    ensures sha256(Print(a)) == sha256(Print(b)) <==> Meaning(a) == Meaning(b)
  {
    SerialisedIdentifiesMeaning(a, b);
  }

  lemma {:induction false} PairsAppend(v: Json, ms: seq<Member>, m: Member)
    requires v.JObject? && m in v.members && forall x :: x in ms ==> x in v.members
    ensures Pairs(v, ms + [m]) == Pairs(v, ms) + [Quoted(m.key) + [COLON] + Print(m.value)]
    decreases |ms|
  {
    if ms == [] {
      assert ms + [m] == [m];
    } else {
      PairsAppend(v, ms[1..], m);
      assert (ms + [m])[1..] == ms[1..] + [m];
    }
  }

  lemma {:induction false} DefinedAppend(ms: seq<Member>, m: Member)
    ensures Defined(ms + [m]) == Defined(ms) + if m.value.JUndefined? then [] else [m]
  {
    if ms == [] {
      assert ms + [m] == [m];
    } else {
      DefinedAppend(ms[1..], m);
      assert (ms + [m])[1..] == ms[1..] + [m];
    }
  }

  lemma {:induction false} PrintsAppend(items: seq<Json>, item: Json)
    ensures Prints(items + [item]) == Prints(items) + [Print(item)]
  {
    if items == [] {
      assert items + [item] == [item];
    } else {
      PrintsAppend(items[1..], item);
      assert (items + [item])[1..] == items[1..] + [item];
    }
  }

  method CanonicalStringify(value: Json) returns (text: Option<Text>)
    ensures text == Serialised(value)
    decreases value, 1
  {
    match value {
      case JUndefined => return None;
      case JArray(items) =>
        var parts: seq<Text> := [];
        for i := 0 to |items|
          invariant parts == Prints(items[..i])
        {
          PrintsAppend(items[..i], items[i]);
          assert items[..i + 1] == items[..i] + [items[i]];
          var item := CanonicalStringify(items[i]);
          parts := parts + [if item.None? then NULL_TEXT else item.value];
        }
        assert items[..|items|] == items;
        return Some([OPEN_ARRAY] + Join(parts, COMMA) + [CLOSE_ARRAY]);
      case JObject(_) =>
        var pairs := PrintPairs(value);
        return Some([OPEN_OBJECT] + Join(pairs, COMMA) + [CLOSE_OBJECT]);
      case _ => return Some(Print(value));
    }
  }

  // The loop over an object's keys, sorted: a member that is undefined is skipped.
  method PrintPairs(record: Json) returns (pairs: seq<Text>)
    requires record.JObject?
    ensures (forall m :: m in Defined(Sort(record.members, MemberLe)) ==> m in record.members)
            && pairs == Pairs(record, Defined(Sort(record.members, MemberLe)))
    decreases record, 0
  {
    var keys := Sort(record.members, MemberLe);
    SortKeepsMembers(record.members);
    pairs := [];
    ghost var done: seq<Member> := [];
    for i := 0 to |keys|
      invariant done == Defined(keys[..i])
      invariant forall m :: m in done ==> m in record.members
      invariant pairs == Pairs(record, done)
    {
      var nested := keys[i];
      assert keys[..i + 1] == keys[..i] + [nested];
      DefinedAppend(keys[..i], nested);
      if !nested.value.JUndefined? {
        DefinedMembers(keys);
        assert nested in Defined(keys);
        PairsAppend(record, done, nested);
        done := done + [nested];
        var printed := CanonicalStringify(nested.value);
        pairs := pairs + [Quoted(nested.key) + [COLON] + printed.value];
      }
    }
    assert keys[..|keys|] == keys;
  }
}
