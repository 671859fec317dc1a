/** Path identity across the Windows and the mounted spelling of one drive. */
module PathIdentity {
  import opened Prelude
  import opened JsText
  import opened PathComponents

  datatype Surface = Windows | Mounted

  datatype Identity = Identity(drive: Unit, suffix: Text, surface: Surface)

  const COLON: Unit := 0x3A
  const MNT: Text := [SLASH, 0x6D, 0x6E, 0x74, SLASH]

  predicate LowerLetter(u: Unit) {
    0x61 <= u <= 0x7A
  }

  predicate Letter(u: Unit) {
    LowerLetter(u) || 0x41 <= u <= 0x5A
  }

  function LowerAscii(u: Unit): Unit {
    if 0x41 <= u <= 0x5A then u + 0x20 else u
  }

  predicate OneLine(s: Text) {
    forall u :: u in s ==> !LineTerminator(u)
  }

  // ---- Windows components ----

  function BeforeDot(s: Text): Text {
    if s == [] || s[0] == DOT then [] else [s[0]] + BeforeDot(s[1..])
  }

  // CON, PRN, AUX, NUL, COM1 to COM9 and LPT1 to LPT9, with or without an extension.
  predicate ReservedName(component: Text) {
    var name := Map(LowerAscii, BeforeDot(component));
    (|| name == [0x63, 0x6F, 0x6E]
     || name == [0x70, 0x72, 0x6E]
     || name == [0x61, 0x75, 0x78]
     || name == [0x6E, 0x75, 0x6C]
     || (|name| == 4 && (name[..3] == [0x63, 0x6F, 0x6D] || name[..3] == [0x6C, 0x70, 0x74])
         && 0x31 <= name[3] <= 0x39))
    && (|BeforeDot(component)| < |component| ==> OneLine(component[|name| + 1..]))
  }

  predicate ForbiddenUnit(u: Unit) {
    u == 0x3C || u == 0x3E || u == COLON || u == 0x22 || u == BAR || u == QUESTION || u == STAR
    || u < 0x20 || u == 0x7F
  }

  const BAR: Unit := 0x7C

  predicate ValidWindowsComponent(component: Text) {
    && component != []
    && (forall u :: u in component ==> !ForbiddenUnit(u))
    && component[|component| - 1] != DOT
    && component[|component| - 1] != 0x20
    && !ReservedName(component)
  }

  predicate AcceptedComponents(cs: seq<Text>) {
    forall c :: c in cs ==> c != [DOT] && c != DOTDOT && ValidWindowsComponent(c)
  }

  predicate DeviceName(name: Text) {
    name == Ascii("con") || name == Ascii("prn") || name == Ascii("aux") || name == Ascii("nul")
    || (|name| == 4 && 0x31 <= name[3] <= 0x39 && (name[..3] == Ascii("com") || name[..3] == Ascii("lpt")))
  }

  // The units before the first dot are a device name, and what follows it is one line.
  ghost predicate NamesDevice(component: Text) {
    exists n :: 0 <= n <= |component| && DotFirstAt(component, n) && DeviceName(Map(LowerAscii, component[..n]))
                && (n < |component| ==> OneLine(component[n + 1..]))
  }

  predicate DotFirstAt(s: Text, n: nat)
    requires n <= |s|
  {
    (forall i :: 0 <= i < n ==> s[i] != DOT) && (n < |s| ==> s[n] == DOT)
  }

  lemma {:induction false} BeforeDotIs(s: Text)
    ensures BeforeDot(s) <= s && DotFirstAt(s, |BeforeDot(s)|)
    ensures forall n :: 0 <= n <= |s| && DotFirstAt(s, n) ==> n == |BeforeDot(s)|
  {
    if s != [] && s[0] != DOT {
      BeforeDotIs(s[1..]);
      var n := |BeforeDot(s[1..])|;
      assert s == [s[0]] + s[1..];
      assert forall i :: 0 < i < |s| ==> s[i] == s[1..][i - 1];
      forall m | 0 <= m <= |s| && DotFirstAt(s, m) ensures m == n + 1 {
        assert DotFirstAt(s[1..], m - 1);
      }
    }
  }

  lemma ReservedIff(component: Text)
    ensures ReservedName(component) <==> NamesDevice(component)
  {
    BeforeDotIs(component);
    var name := BeforeDot(component);
    assert component[..|name|] == name && |Map(LowerAscii, name)| == |name|;
    assert Ascii("con") == [0x63, 0x6F, 0x6E] && Ascii("prn") == [0x70, 0x72, 0x6E] && Ascii("aux") == [0x61, 0x75, 0x78];
    assert Ascii("nul") == [0x6E, 0x75, 0x6C] && Ascii("com") == [0x63, 0x6F, 0x6D] && Ascii("lpt") == [0x6C, 0x70, 0x74];
  }

  // A component Windows takes: not empty, no forbidden unit, no closing dot or space, no device.
  lemma WindowsComponentIff(component: Text)
    ensures ValidWindowsComponent(component)
            <==> |component| > 0 && component[|component| - 1] !in {0x2E, 0x20} && !NamesDevice(component)
                 && forall k :: 0 <= k < |component| ==>
                      component[k] >= 0x20 && component[k] != 0x7F && component[k] !in Ascii("<>:\"|?*")
  {
    ReservedIff(component);
    var forbidden := Ascii("<>:\"|?*");
    assert forbidden == [0x3C, 0x3E, 0x3A, 0x22, 0x7C, 0x3F, 0x2A];
    forall u: Unit ensures ForbiddenUnit(u) <==> u < 0x20 || u == 0x7F || u in forbidden {}
    forall k | 0 <= k < |component| ensures component[k] in component {}
  }

  // ---- Normalisation of node:path ----

  function PosixNormalize(s: Text): Text {
    if s == [] then [DOT]
    else
      var absolute := s[0] == SLASH;
      var body := Join(Resolve(Components(s), !absolute), SLASH);
      if body == [] then (if absolute then [SLASH] else if EndsInSlash(s) then [DOT, SLASH] else [DOT])
      else (if absolute then [SLASH] else []) + body + if EndsInSlash(s) then [SLASH] else []
  }

  // A drive letter, a colon, a separator and one line.
  predicate WindowsSpelling(s: Text) {
    |s| >= 3 && Letter(s[0]) && s[1] == COLON && (s[2] == SLASH || s[2] == BACKSLASH) && OneLine(s[3..])
  }

  function Tail(s: Text): Text
    requires |s| >= 3
  {
    Slashes(s[3..])
  }

  function Win32Normalize(s: Text): (n: Text)
    requires WindowsSpelling(s)
    ensures |n| >= 3
  {
    var body := Join(Resolve(Components(Tail(s)), false), BACKSLASH);
    [s[0], COLON, BACKSLASH] + body + if body != [] && EndsInSlash(Tail(s)) then [BACKSLASH] else []
  }

  // ---- Drive identity ----

  // Where the drive letter of a mounted spelling stands.
  function DriveAt(s: Text): (at: Option<nat>)
    ensures at.Some? ==> at.value < |s| && (at.value == 1 || at.value == 5)
  {
    if MNT <= s && |s| > 5 && LowerLetter(s[5]) && (|s| == 6 || (s[6] == SLASH && OneLine(s[7..]))) then Some(5)
    else if |s| > 1 && s[0] == SLASH && LowerLetter(s[1]) && (|s| == 2 || (s[2] == SLASH && OneLine(s[3..]))) then Some(1)
    else None
  }

  // The drive letter, and after it nothing or a slash and one line.
  predicate FromDrive(s: Text, at: nat) {
    |s| > at && 0x61 <= s[at] <= 0x7A && (|s| == at + 1 || (s[at + 1] == SLASH && OneLine(s[at + 2..])))
  }

  // Below /mnt/ before the root itself.
  lemma DriveAtIff(s: Text)
    ensures DriveAt(s) == Some(5) <==> StartsWith(s, Ascii("/mnt/")) && FromDrive(s, 5)
    ensures DriveAt(s) == Some(1)
            <==> StartsWith(s, Ascii("/")) && FromDrive(s, 1) && !(StartsWith(s, Ascii("/mnt/")) && FromDrive(s, 5))
  {
    assert Ascii("/") == [SLASH] && MNT == Ascii("/mnt/");
  }

  // What follows the drive letter and its slash.
  function MountedTail(s: Text): Text
    requires DriveAt(s).Some?
  {
    var at := DriveAt(s).value;
    if |s| == at + 1 then [] else s[at + 2..]
  }

  function DriveIdentity(value: Text): (identity: Option<Identity>) {
    if value == [] then None
    else if WindowsSpelling(value) then
      if value != Trim(value) then None
      else if !AcceptedComponents(Components(Tail(value))) then None
      else
        var normalized := Slashes(Win32Normalize(value));
        Some(Identity(LowerAscii(normalized[0]), StripSlashes(Collapse(normalized[3..])), Windows))
    else if value != Trim(value) then None
    else
      var normalized := StripSlashes(value);
      if BACKSLASH in normalized || DriveAt(normalized).None? then None
      else Some(Identity(normalized[DriveAt(normalized).value], Collapse(MountedTail(normalized)), Mounted))
  }

  predicate IsWindows(identity: Option<Identity>) {
    identity.Some? && identity.value.surface == Windows
  }

  predicate SameDrivePath(fold: Unit -> Unit, left: Identity, right: Identity) {
    fold(left.drive) == fold(right.drive) && Map(fold, left.suffix) == Map(fold, right.suffix)
  }

  // An absent value is the empty text.
  predicate SamePathSurfaceIdentity(fold: Unit -> Unit, left: Text, right: Text) {
    var leftDrive, rightDrive := DriveIdentity(left), DriveIdentity(right);
    if IsWindows(leftDrive) || IsWindows(rightDrive) then
      if !IsWindows(leftDrive) || !IsWindows(rightDrive) then false
      else SameDrivePath(fold, leftDrive.value, rightDrive.value)
    else if left != Trim(left) || right != Trim(right) then left == right
    else PosixNormalize(left) == PosixNormalize(right)
  }

  predicate SameCrossSurfacePathIdentity(fold: Unit -> Unit, left: Text, right: Text) {
    var leftDrive, rightDrive := DriveIdentity(left), DriveIdentity(right);
    if leftDrive.Some? && rightDrive.Some? && (IsWindows(leftDrive) || IsWindows(rightDrive)) then
      SameDrivePath(fold, leftDrive.value, rightDrive.value)
    else if StartsWith(left, [SLASH]) && StartsWith(right, [SLASH]) then
      PosixNormalize(left) == PosixNormalize(right)
    else if left != Trim(left) || right != Trim(right) then false
    else PosixNormalize(left) == PosixNormalize(right)
  }

  // ---- Surface identity is an equivalence ----

  datatype Key =
    | DriveKey(drive: Unit, suffix: Text)
    | ExactKey(text: Text)
    | NormalKey(text: Text)

  function SurfaceKey(fold: Unit -> Unit, s: Text): Key {
    var identity := DriveIdentity(s);
    if IsWindows(identity) then DriveKey(fold(identity.value.drive), Map(fold, identity.value.suffix))
    else if s != Trim(s) then ExactKey(s)
    else NormalKey(PosixNormalize(s))
  }

  // The three regimes never compare two texts by different rules: each text has
  // one key, and the relation is equality of keys.
  lemma SurfaceIdentityIsKeyEquality(fold: Unit -> Unit, left: Text, right: Text)
    ensures SamePathSurfaceIdentity(fold, left, right) <==> SurfaceKey(fold, left) == SurfaceKey(fold, right)
  {
  }

  lemma SurfaceIdentityIsAnEquivalence(fold: Unit -> Unit, a: Text, b: Text, c: Text)
    ensures SamePathSurfaceIdentity(fold, a, a)
    ensures SamePathSurfaceIdentity(fold, a, b) <==> SamePathSurfaceIdentity(fold, b, a)
    ensures SamePathSurfaceIdentity(fold, a, b) && SamePathSurfaceIdentity(fold, b, c)
            ==> SamePathSurfaceIdentity(fold, a, c)
  {
    SurfaceIdentityIsKeyEquality(fold, a, a);
    SurfaceIdentityIsKeyEquality(fold, a, b);
    SurfaceIdentityIsKeyEquality(fold, b, a);
    SurfaceIdentityIsKeyEquality(fold, b, c);
    SurfaceIdentityIsKeyEquality(fold, a, c);
  }

  // ---- A drive's suffix is its components ----

  lemma {:induction false} SlashesJoin(cs: seq<Text>)
    requires forall c :: c in cs ==> BACKSLASH !in c
    ensures Slashes(Join(cs, BACKSLASH)) == Join(cs, SLASH)
  {
    if cs != [] {
      assert cs[0] in cs;
      assert Slashes(cs[0]) == cs[0];
      if |cs| > 1 {
        SlashesJoin(cs[1..]);
        var rest := Join(cs[1..], BACKSLASH);
        assert Slashes(cs[0] + [BACKSLASH] + rest) == Slashes(cs[0]) + [SLASH] + Slashes(rest);
      }
    }
  }

  lemma TailHasNoBackslash(s: Text)
    requires |s| >= 3
    ensures forall c :: c in Components(Tail(s)) ==> Component(c) && BACKSLASH !in c
  {
    ComponentsAreComponents(Tail(s));
    assert BACKSLASH !in Tail(s);
  }

  lemma StripJoined(cs: seq<Text>)
    requires forall c :: c in cs ==> Component(c)
    ensures StripSlashes(Collapse(Join(cs, SLASH))) == Join(cs, SLASH)
    ensures StripSlashes(Collapse(Join(cs, SLASH) + [SLASH])) == Join(cs, SLASH)
  {
    var joined := Join(cs, SLASH);
    JoinKeepsComponents(cs);
    CollapseSpells(joined);
    JoinStart(cs);
    assert Spelled(joined) == joined;
    var longer := joined + [SLASH];
    assert longer[..|longer| - 1] == joined;
    CollapseKeepsComponents(joined);
    if joined == [] {
      assert Collapse(longer) == [SLASH] && [SLASH][..0] == [];
    } else {
      assert Collapse(longer) == longer;
    }
  }

  lemma JoinStart(cs: seq<Text>)
    requires forall c :: c in cs ==> Component(c)
    ensures Join(cs, SLASH) != [] ==> Join(cs, SLASH)[0] != SLASH
  {
    if cs != [] { assert cs[0] in cs && cs[0][0] in cs[0]; }
  }

  lemma SlashesAppend(a: Text, b: Text)
    ensures Slashes(a + b) == Slashes(a) + Slashes(b)
  {
  }

  // Nothing is left to resolve, so normalising only rewrites the separators.
  lemma NormalizedTail(value: Text)
    requires WindowsSpelling(value) && AcceptedComponents(Components(Tail(value)))
    ensures (var joined, normalized := Join(Components(Tail(value)), SLASH), Slashes(Win32Normalize(value));
             normalized[0] == value[0] && (normalized[3..] == joined || normalized[3..] == joined + [SLASH]))
  {
    var cs := Components(Tail(value));
    ResolveKeepsPlain(cs, false);
    TailHasNoBackslash(value);
    SlashesJoin(cs);
    var root, body := [value[0], COLON, BACKSLASH], Join(cs, BACKSLASH);
    SlashesAppend(root, body);
    SlashesAppend(root + body, [BACKSLASH]);
    assert Slashes([BACKSLASH]) == [SLASH];
    assert (root + body) + [] == root + body;
    assert |Slashes(root)| == 3 && Slashes(root)[0] == value[0];
  }

  lemma WindowsSuffix(value: Text)
    requires IsWindows(DriveIdentity(value))
    ensures WindowsSpelling(value) && AcceptedComponents(Components(Tail(value)))
    ensures DriveIdentity(value).value.drive == LowerAscii(value[0])
    ensures DriveIdentity(value).value.suffix == Join(Components(Tail(value)), SLASH)
  {
    NormalizedTail(value);
    TailHasNoBackslash(value);
    StripJoined(Components(Tail(value)));
  }

  lemma MountedTailEnds(n: Text)
    requires DriveAt(n).Some? && !EndsInSlash(n)
    ensures !EndsInSlash(MountedTail(n))
  {
    var tail := MountedTail(n);
    if tail != [] { assert tail[|tail| - 1] == n[|n| - 1]; }
  }

  lemma MountedSuffix(value: Text)
    requires DriveIdentity(value).Some? && DriveIdentity(value).value.surface == Mounted
    ensures (var n := StripSlashes(value);
             DriveAt(n).Some? && DriveIdentity(value).value.drive == n[DriveAt(n).value]
             && DriveIdentity(value).value.suffix == Spelled(MountedTail(n)))
  {
    var n := StripSlashes(value);
    StripKeepsComponents(value);
    MountedTailEnds(n);
    CollapseSpells(MountedTail(n));
  }

  // Two Windows spellings are one path exactly when the drives and the folded
  // components agree: separators, their number and a trailing one do not matter.
  lemma WindowsIdentityIsComponents(fold: Unit -> Unit, left: Text, right: Text)
    requires KeepsSlash(fold) && IsWindows(DriveIdentity(left)) && IsWindows(DriveIdentity(right))
    ensures SamePathSurfaceIdentity(fold, left, right)
            <==> && fold(LowerAscii(left[0])) == fold(LowerAscii(right[0]))
                 && MapAll(fold, Components(Tail(left))) == MapAll(fold, Components(Tail(right)))
  {
    WindowsSuffix(left);
    WindowsSuffix(right);
    TailHasNoBackslash(left);
    TailHasNoBackslash(right);
    JoinedIdentity(fold, Components(Tail(left)), Components(Tail(right)));
  }

  lemma {:induction false} FoldJoin(fold: Unit -> Unit, cs: seq<Text>)
    requires KeepsSlash(fold)
    ensures Map(fold, Join(cs, SLASH)) == Join(MapAll(fold, cs), SLASH)
  {
    if |cs| > 1 {
      FoldJoin(fold, cs[1..]);
      assert MapAll(fold, cs)[1..] == MapAll(fold, cs[1..]);
      var rest := Join(cs[1..], SLASH);
      assert Map(fold, cs[0] + [SLASH] + rest) == Map(fold, cs[0]) + [SLASH] + Map(fold, rest);
    }
  }

  lemma JoinedIdentity(fold: Unit -> Unit, left: seq<Text>, right: seq<Text>)
    requires KeepsSlash(fold) && (forall c :: c in left ==> Component(c)) && (forall c :: c in right ==> Component(c))
    ensures Map(fold, Join(left, SLASH)) == Map(fold, Join(right, SLASH))
            <==> MapAll(fold, left) == MapAll(fold, right)
  {
    JoinKeepsComponents(left);
    JoinKeepsComponents(right);
    FoldKeepsComponents(fold, Join(left, SLASH));
    FoldKeepsComponents(fold, Join(right, SLASH));
    FoldJoin(fold, left);
    FoldJoin(fold, right);
  }

  // ---- The Windows and the mounted spelling ----

  predicate KeepsDots(fold: Unit -> Unit) {
    forall u :: fold(u) == DOT <==> u == DOT
  }

  predicate Doubled(tail: Text) {
    tail != [] && tail[0] == SLASH && Components(tail) != []
  }

  // A Windows and a mounted spelling match exactly when the drives agree, the
  // folded components agree and no second slash follows the mounted drive; the
  // components of both then hold no dot and no two dots.
  lemma CrossMatchIsComponents(fold: Unit -> Unit, windows: Text, mounted: Text)
    requires KeepsSlash(fold) && KeepsDots(fold)
    requires IsWindows(DriveIdentity(windows))
    requires DriveIdentity(mounted).Some? && DriveIdentity(mounted).value.surface == Mounted
    ensures (var n := StripSlashes(mounted);
             && WindowsSpelling(windows) && DriveAt(n).Some?
             && (SameCrossSurfacePathIdentity(fold, windows, mounted)
                 <==> && fold(LowerAscii(windows[0])) == fold(n[DriveAt(n).value])
                      && MapAll(fold, Components(Tail(windows))) == MapAll(fold, Components(MountedTail(n)))
                      && !Doubled(MountedTail(n)))
             && (SameCrossSurfacePathIdentity(fold, windows, mounted)
                 ==> Dotless(Components(Tail(windows))) && Dotless(Components(MountedTail(n)))))
  {
    var n := StripSlashes(mounted);
    WindowsSuffix(windows);
    MountedSuffix(mounted);
    TailHasNoBackslash(windows);
    ComponentsAreComponents(MountedTail(n));
    var ws, ms := Components(Tail(windows)), Components(MountedTail(n));
    JoinedIdentity(fold, ws, ms);
    if Doubled(MountedTail(n)) {
      LeadingSlashDiffers(fold, ws, Join(ms, SLASH));
    } else {
      assert Spelled(MountedTail(n)) == Join(ms, SLASH);
    }
    if MapAll(fold, ws) == MapAll(fold, ms) { DotlessTogether(fold, ws, ms); }
  }

  lemma LeadingSlashDiffers(fold: Unit -> Unit, cs: seq<Text>, rest: Text)
    requires KeepsSlash(fold) && forall c :: c in cs ==> Component(c)
    ensures Map(fold, Join(cs, SLASH)) != Map(fold, [SLASH] + rest)
  {
    JoinStart(cs);
    var joined := Join(cs, SLASH);
    if joined != [] { assert Map(fold, joined)[0] != Map(fold, [SLASH] + rest)[0]; }
  }

  lemma FoldedDots(fold: Unit -> Unit, a: Text, b: Text)
    requires KeepsDots(fold) && Map(fold, a) == Map(fold, b)
    ensures b == [DOT] ==> a == [DOT]
    ensures b == DOTDOT ==> a == DOTDOT
  {
    assert |Map(fold, a)| == |Map(fold, b)|;
    forall k | 0 <= k < |a| ensures a[k] == DOT <==> b[k] == DOT {
      assert Map(fold, a)[k] == Map(fold, b)[k];
    }
  }

  lemma DotlessTogether(fold: Unit -> Unit, ws: seq<Text>, ms: seq<Text>)
    requires KeepsDots(fold) && MapAll(fold, ws) == MapAll(fold, ms) && Dotless(ws)
    ensures Dotless(ms)
  {
    forall i | 0 <= i < |ms| ensures ms[i] != [DOT] && ms[i] != DOTDOT {
      assert MapAll(fold, ws)[i] == MapAll(fold, ms)[i];
      assert ws[i] in ws;
      FoldedDots(fold, ws[i], ms[i]);
    }
  }

  lemma CrossSurfaceIsSymmetric(fold: Unit -> Unit, left: Text, right: Text)
    ensures SameCrossSurfacePathIdentity(fold, left, right) <==> SameCrossSurfacePathIdentity(fold, right, left)
  {
  }

  // A path is its own identity exactly when it is rooted or has no blank at an end.
  lemma CrossSurfaceReflexiveIff(fold: Unit -> Unit, path: Text)
    ensures SameCrossSurfacePathIdentity(fold, path, path) <==> StartsWith(path, [SLASH]) || path == Trim(path)
  {
  }

  // The mounted spelling /c/ and one letter.
  function MountedLetter(u: Unit): Text {
    [SLASH, 0x63, SLASH, u]
  }

  lemma MountedLetterIdentity(u: Unit)
    requires Letter(u)
    ensures DriveIdentity(MountedLetter(u)) == Some(Identity(0x63, [u], Mounted))
  {
    var s := MountedLetter(u);
    assert Trim(s) == s && StripSlashes(s) == s;
    assert DriveAt(s) == Some(1) && MountedTail(s) == [u];
    assert [u][..0] == [] && Collapse([]) == [] && Collapse([u]) == [] + [u];
    assert !WindowsSpelling(s) && BACKSLASH !in s;
    assert s[1] == 0x63 && [] + [u] == [u];
  }

  lemma MountedLetterComponents(u: Unit)
    requires Letter(u)
    ensures Components(MountedLetter(u)) == [[0x63], [u]]
  {
    var root := [SLASH];
    assert root[..0] == [] && Components(root) == [];
    ComponentAfterSlash(root, [0x63]);
    var drive := root + [0x63] + [SLASH];
    assert drive[..|drive| - 1] == root + [0x63];
    ComponentAfterSlash(drive, [u]);
    assert MountedLetter(u) == drive + [u];
    assert [] + [[0x63]] + [[u]] == [[0x63], [u]];
  }

  lemma PlainPathIsNormal(s: Text, cs: seq<Text>)
    requires Components(s) == cs && Dotless(cs) && !EndsInSlash(s)
    requires Join(cs, SLASH) != [] && s == [SLASH] + Join(cs, SLASH)
    ensures PosixNormalize(s) == s
  {
    ResolveKeepsPlain(cs, false);
    assert s + [] == s;
  }

  lemma MountedLetterIsNormal(u: Unit)
    requires Letter(u)
    ensures PosixNormalize(MountedLetter(u)) == MountedLetter(u)
  {
    MountedLetterComponents(u);
    JoinAppend([[0x63]], [u], SLASH);
    assert [[0x63]] + [[u]] == [[0x63], [u]];
    assert [SLASH] + Join([[0x63], [u]], SLASH) == MountedLetter(u);
    PlainPathIsNormal(MountedLetter(u), [[0x63], [u]]);
  }

  lemma WindowsLetter() returns (s: Text)
    ensures s == [0x63, COLON, SLASH, 0x61] && DriveIdentity(s) == Some(Identity(0x63, [0x61], Windows))
  {
    s := [0x63, COLON, SLASH, 0x61];
    assert Trim(s) == s && Tail(s) == [0x61];
    assert [0x61][..0] == [] && Components([0x61]) == [[0x61]];
    assert BeforeDot([0x61]) == [0x61] + BeforeDot([]);
    assert |Map(LowerAscii, BeforeDot([0x61]))| == 1;
    assert AcceptedComponents([[0x61]]);
    WindowsSuffix(s);
    assert Join([[0x61]], SLASH) == [0x61];
  }

  lemma MatchedOnlyThroughWindows(fold: Unit -> Unit, first: Text, windows: Text, second: Text)
    requires IsWindows(DriveIdentity(windows))
    requires DriveIdentity(first).Some? && DriveIdentity(first).value.surface == Mounted
    requires DriveIdentity(second).Some? && DriveIdentity(second).value.surface == Mounted
    requires SameDrivePath(fold, DriveIdentity(first).value, DriveIdentity(windows).value)
    requires SameDrivePath(fold, DriveIdentity(windows).value, DriveIdentity(second).value)
    requires PosixNormalize(first) != PosixNormalize(second)
    ensures SameCrossSurfacePathIdentity(fold, first, windows)
    ensures SameCrossSurfacePathIdentity(fold, windows, second)
    ensures !SameCrossSurfacePathIdentity(fold, first, second)
  {
  }

  // c:/a matches /c/A and /c/a, which do not match each other, under any folding of A to a.
  lemma CrossSurfaceIsNotTransitive(fold: Unit -> Unit) returns (first: Text, windows: Text, second: Text)
    requires fold(0x41) == fold(0x61)
    ensures SameCrossSurfacePathIdentity(fold, first, windows)
    ensures SameCrossSurfacePathIdentity(fold, windows, second)
    ensures !SameCrossSurfacePathIdentity(fold, first, second)
  {
    windows := WindowsLetter();
    first, second := MountedLetters(0x41, 0x61);
    assert Map(fold, [0x41]) == Map(fold, [0x61]);
    MatchedOnlyThroughWindows(fold, first, windows, second);
  }

  lemma MountedLetters(u: Unit, v: Unit) returns (first: Text, second: Text)
    requires Letter(u) && Letter(v) && u != v
    ensures DriveIdentity(first) == Some(Identity(0x63, [u], Mounted))
    ensures DriveIdentity(second) == Some(Identity(0x63, [v], Mounted))
    ensures PosixNormalize(first) != PosixNormalize(second)
  {
    first, second := MountedLetter(u), MountedLetter(v);
    MountedLetterIdentity(u);
    MountedLetterIdentity(v);
    MountedLetterIsNormal(u);
    MountedLetterIsNormal(v);
    assert first[3] == u && second[3] == v;
  }
}
