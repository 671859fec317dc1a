/** JavaScript text: a sequence of UTF-16 code units. */
module JsText {
  import opened Sorting

  type Unit = u: int | 0 <= u < 0x1_0000

  type Text = seq<Unit>

  function Ascii(s: string): Text
    requires forall i :: 0 <= i < |s| ==> s[i] < 128 as char
  {
    seq(|s|, i requires 0 <= i < |s| => s[i] as int)
  }

  const SLASH: Unit := 0x2F
  const BACKSLASH: Unit := 0x5C
  const STAR: Unit := 0x2A
  const QUESTION: Unit := 0x3F
  const DOT: Unit := 0x2E

  predicate StartsWith(s: Text, prefix: Text) {
    prefix <= s
  }

  predicate EndsWith(s: Text, suffix: Text) {
    |suffix| <= |s| && s[|s| - |suffix|..] == suffix
  }

  // replace(/\\/g, '/')
  function Slashes(s: Text): Text {
    seq(|s|, i requires 0 <= i < |s| => if s[i] == BACKSLASH then SLASH else s[i])
  }

  function Map(fold: Unit -> Unit, s: Text): Text {
    seq(|s|, i requires 0 <= i < |s| => fold(s[i]))
  }

  predicate LineTerminator(u: Unit) {
    u == 0x0A || u == 0x0D || u == 0x2028 || u == 0x2029
  }

  // WhiteSpace and LineTerminator, as String.prototype.trim removes them.
  predicate Blank(u: Unit) {
    LineTerminator(u) || u == 0x09 || u == 0x0B || u == 0x0C || u == 0x20 || u == 0xA0 || u == 0x1680
    || 0x2000 <= u <= 0x200A || u == 0x202F || u == 0x205F || u == 0x3000 || u == 0xFEFF
  }

  function TrimStart(s: Text): Text {
    if s != [] && Blank(s[0]) then TrimStart(s[1..]) else s
  }

  function TrimEnd(s: Text): Text {
    if s != [] && Blank(s[|s| - 1]) then TrimEnd(s[..|s| - 1]) else s
  }

  function Trim(s: Text): Text {
    TrimEnd(TrimStart(s))
  }

  // Text order: code unit by code unit, a prefix first.
  predicate TextLe(a: Text, b: Text) {
    if a == [] then true
    else if b == [] then false
    else if a[0] != b[0] then a[0] < b[0]
    else TextLe(a[1..], b[1..])
  }

  lemma {:induction false} TextLeTotal(a: Text, b: Text)
    ensures TextLe(a, b) || TextLe(b, a)
    ensures TextLe(a, b) && TextLe(b, a) ==> a == b
  {
    if a != [] && b != [] && a[0] == b[0] {
      TextLeTotal(a[1..], b[1..]);
      if a[1..] == b[1..] { assert a == [a[0]] + a[1..] && b == [b[0]] + b[1..]; }
    }
  }

  lemma {:induction false} TextLeTransitive(a: Text, b: Text, c: Text)
    requires TextLe(a, b) && TextLe(b, c)
    ensures TextLe(a, c)
  {
    if a != [] && b != [] && c != [] && a[0] == b[0] == c[0] {
      TextLeTransitive(a[1..], b[1..], c[1..]);
    }
  }

  function Join(parts: seq<Text>, separator: Unit): Text {
    if parts == [] then []
    else if |parts| == 1 then parts[0]
    else parts[0] + [separator] + Join(parts[1..], separator)
  }

  // filter(Boolean)
  function NonEmpty(parts: seq<Text>): seq<Text> {
    if parts == [] then []
    else (if parts[0] == [] then [] else [parts[0]]) + NonEmpty(parts[1..])
  }

  lemma {:induction false} NonEmptyKeeps(parts: seq<Text>)
    ensures forall p :: p in NonEmpty(parts) <==> p in parts && p != []
  {
    if parts != [] {
      NonEmptyKeeps(parts[1..]);
      assert parts == [parts[0]] + parts[1..];
    }
  }

  lemma TextOrdered()
    ensures TotalPreorder(TextLe) && Antisymmetric(TextLe)
  {
    forall x: Text, y: Text ensures TextLe(x, y) || TextLe(y, x)
    {
      TextLeTotal(x, y);
    }
    forall x: Text, y: Text | TextLe(x, y) && TextLe(y, x) ensures x == y {
      TextLeTotal(x, y);
    }
    forall x: Text, y: Text, z: Text | TextLe(x, y) && TextLe(y, z) ensures TextLe(x, z) {
      TextLeTransitive(x, y, z);
    }
  }
}
