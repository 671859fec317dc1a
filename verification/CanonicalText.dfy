/** The canonical text unit by unit: which one of the texts a reader accepts the printer writes. */
module CanonicalText {
  import opened Prelude
  import opened JsText
  import opened Sorting
  import opened ContextReceipt

  // ---- Text order ----

  ghost predicate DiffersAt(a: Text, b: Text, k: nat) {
    k <= |a| && k < |b| && (forall i :: 0 <= i < k ==> a[i] == b[i]) && (k == |a| || a[k] < b[k])
  }

  // At the first difference the smaller unit comes first, and a prefix before what it begins.
  ghost predicate ComesBefore(a: Text, b: Text) {
    exists k: nat :: DiffersAt(a, b, k)
  }

  lemma {:induction false} TextLeIsOrder(a: Text, b: Text)
    ensures TextLe(a, b) <==> a == b || ComesBefore(a, b)
  {
    if a == [] || b == [] || a[0] != b[0] {
      assert DiffersAt(a, b, 0) <==> b != [] && (a == [] || a[0] < b[0]);
      assert forall k: nat :: DiffersAt(a, b, k) ==> k == 0;
    } else {
      TextLeIsOrder(a[1..], b[1..]);
      assert a == [a[0]] + a[1..] && b == [b[0]] + b[1..];
      if k: nat :| DiffersAt(a[1..], b[1..], k) { OneUnitMore(a, b, k); }
      if k: nat :| DiffersAt(a, b, k) { OneUnitLess(a, b, k); }
    }
  }

  lemma OneUnitMore(a: Text, b: Text, k: nat)
    requires a != [] && b != [] && a[0] == b[0] && DiffersAt(a[1..], b[1..], k)
    ensures DiffersAt(a, b, k + 1)
  {
    forall i | 0 <= i < k + 1 ensures a[i] == b[i] {
      if i > 0 { assert a[1..][i - 1] == b[1..][i - 1]; }
    }
  }

  lemma OneUnitLess(a: Text, b: Text, k: nat)
    requires a != [] && b != [] && a[0] == b[0] && DiffersAt(a, b, k)
    ensures k > 0 && DiffersAt(a[1..], b[1..], k - 1)
  {
  }

  // ---- Strings ----

  // A surrogate with its other half beside it.
  predicate InPair(s: Text, i: nat)
    requires i < |s|
  {
    (HighSurrogate(s[i]) && i + 1 < |s| && LowSurrogate(s[i + 1]))
    || (LowSurrogate(s[i]) && i > 0 && HighSurrogate(s[i - 1]))
  }

  predicate LowerHex(u: Unit) {
    0x30 <= u <= 0x39 || 0x61 <= u <= 0x66
  }

  // How a string's i-th unit is written: a quote and a backslash behind a backslash, five control units by
  // their letter, the other control units and half pairs by four lower-case digits, and any other as itself.
  ghost predicate WrittenAs(s: Text, i: nat, t: Text)
    requires i < |s|
  {
    var u := s[i];
    if u == 0x22 then t == Ascii("\\\"")
    else if u == 0x5C then t == Ascii("\\\\")
    else if u == 0x08 then t == Ascii("\\b")
    else if u == 0x09 then t == Ascii("\\t")
    else if u == 0x0A then t == Ascii("\\n")
    else if u == 0x0C then t == Ascii("\\f")
    else if u == 0x0D then t == Ascii("\\r")
    else if u < 0x20 || (0xD800 <= u <= 0xDFFF && !InPair(s, i)) then
      |t| == 6 && t[..2] == Ascii("\\u") && LowerHex(t[2]) && LowerHex(t[3]) && LowerHex(t[4]) && LowerHex(t[5])
      && UnicodeUnit(t) == Some(u)
    else t == [u]
  }

  function Concat(parts: seq<Text>): Text {
    if parts == [] then [] else parts[0] + Concat(parts[1..])
  }

  lemma EscapedUnitIsWritten(s: Text, i: nat)
    requires i < |s| && !InPair(s, i)
    ensures WrittenAs(s, i, EscapedUnit(s[i]))
  {
    var u := s[i];
    if ShortEscape(u).None? && (u < 0x20 || HighSurrogate(u) || LowSurrogate(u)) { UnicodeIsWritten(u); }
  }

  lemma UnicodeIsWritten(u: Unit)
    ensures (var t := UnicodeEscape(u);
             t[..2] == Ascii("\\u") && LowerHex(t[2]) && LowerHex(t[3]) && LowerHex(t[4]) && LowerHex(t[5])
             && UnicodeUnit(t) == Some(u))
  {
    UnicodeReads(u, []);
    assert UnicodeEscape(u) + [] == UnicodeEscape(u);
  }

  lemma WrittenFurther(s: Text, n: nat, i: nat, t: Text)
    requires n + i < |s| && WrittenAs(s[n..], i, t) && (n > 0 ==> !HighSurrogate(s[n - 1]) || !LowSurrogate(s[n]))
    ensures WrittenAs(s, n + i, t)
  {
  }

  ghost predicate AllWritten(s: Text, parts: seq<Text>) {
    |parts| == |s| && forall i :: 0 <= i < |s| ==> WrittenAs(s, i, parts[i])
  }

  lemma HeadAndRest(s: Text, head: seq<Text>, rest: seq<Text>)
    requires 0 < |head| <= |s| && AllWritten(s[|head|..], rest)
    requires |head| < |s| ==> !HighSurrogate(s[|head| - 1]) || !LowSurrogate(s[|head|])
    requires forall i :: 0 <= i < |head| ==> WrittenAs(s, i, head[i])
    ensures AllWritten(s, head + rest)
  {
    forall i | 0 <= i < |s| ensures WrittenAs(s, i, (head + rest)[i]) {
      if i >= |head| {
        assert WrittenAs(s[|head|..], i - |head|, rest[i - |head|]);
        WrittenFurther(s, |head|, i - |head|, rest[i - |head|]);
      }
    }
  }

  lemma PairIsWritten(s: Text)
    requires StartsPair(s)
    ensures WrittenAs(s, 0, [s[0]]) && WrittenAs(s, 1, [s[1]])
  {
  }

  lemma {:induction false} EscapedIsWritten(s: Text) returns (parts: seq<Text>)
    ensures AllWritten(s, parts) && Concat(parts) == Escaped(s)
  {
    if s == [] {
      parts := [];
    } else if StartsPair(s) {
      var rest := EscapedIsWritten(s[2..]);
      parts := [[s[0]], [s[1]]] + rest;
      PairIsWritten(s);
      HeadAndRest(s, [[s[0]], [s[1]]], rest);
      HeadConcats([[s[0]], [s[1]]], rest);
    } else {
      var rest := EscapedIsWritten(s[1..]);
      parts := [EscapedUnit(s[0])] + rest;
      EscapedUnitIsWritten(s, 0);
      HeadAndRest(s, [EscapedUnit(s[0])], rest);
      HeadConcats([EscapedUnit(s[0])], rest);
    }
  }

  // A printed string is its units one after the other in quotes, each written so.
  lemma StringIsWritten(s: Text) returns (parts: seq<Text>)
    ensures AllWritten(s, parts) && Print(JString(s)) == Ascii("\"") + Concat(parts) + Ascii("\"")
  {
    parts := EscapedIsWritten(s);
  }

  lemma HeadConcats(head: seq<Text>, rest: seq<Text>)
    requires 0 < |head| <= 2
    ensures Concat(head + rest) == (if |head| == 1 then head[0] else head[0] + head[1]) + Concat(rest)
  {
    assert (head + rest)[1..] == head[1..] + rest;
    if |head| == 2 {
      assert (head[1..] + rest)[1..] == rest;
    } else {
      assert head[1..] + rest == rest;
    }
  }

  // ---- Objects ----

  // The members written, and in which order.
  ghost predicate InKeyOrder(v: Json, ms: seq<Member>)
    requires v.JObject?
  {
    && (forall m :: m in ms <==> m in v.members && !m.value.JUndefined?)
    && forall i, j :: 0 <= i < j < |ms| ==> ComesBefore(ms[i].key, ms[j].key)
  }

  // An object's text is its defined members in the order of their keys, each with its key, a colon and its
  // value, and commas between them.
  lemma ObjectIsWritten(v: Json) returns (ms: seq<Member>, parts: seq<Text>)
    requires v.JObject? && WellFormed(v)
    ensures InKeyOrder(v, ms) && |parts| == |ms|
    ensures forall i :: 0 <= i < |ms| ==> parts[i] == Quoted(ms[i].key) + Ascii(":") + Print(ms[i].value)
    ensures Print(v) == Ascii("{") + Join(parts, COMMA) + Ascii("}")
  {
    ms := Defined(Sort(v.members, MemberLe));
    SortedIsListed(v);
    SortKeepsMembers(v.members);
    forall i, j | 0 <= i < j < |ms| ensures ComesBefore(ms[i].key, ms[j].key) {
      TextLeIsOrder(ms[i].key, ms[j].key);
    }
    parts := Pairs(v, ms);
    PairsAre(v, ms);
  }

  lemma {:induction false} PairsAre(v: Json, ms: seq<Member>)
    requires v.JObject? && forall m :: m in ms ==> m in v.members
    ensures |Pairs(v, ms)| == |ms|
    ensures forall i :: 0 <= i < |ms| ==> Pairs(v, ms)[i] == Quoted(ms[i].key) + Ascii(":") + Print(ms[i].value)
    decreases |ms|
  {
    if ms != [] {
      PairsAre(v, ms[1..]);
      forall i | 0 <= i < |ms| ensures Pairs(v, ms)[i] == Quoted(ms[i].key) + Ascii(":") + Print(ms[i].value) {
        if i > 0 { assert Pairs(v, ms)[i] == Pairs(v, ms[1..])[i - 1] && ms[i] == ms[1..][i - 1]; }
      }
    }
  }
}
