/** When cross-surface path identity carries over a third spelling, and when not. */
module CrossSurface {
  import opened Prelude
  import opened JsText
  import opened PathComponents
  import opened PathIdentity

  predicate OnWindows(s: Text) {
    IsWindows(DriveIdentity(s))
  }

  predicate OnMount(s: Text) {
    DriveIdentity(s).Some? && DriveIdentity(s).value.surface == Mounted
  }

  predicate Plain(s: Text) {
    DriveIdentity(s).None?
  }

  predicate Rooted(s: Text) {
    StartsWith(s, [SLASH])
  }

  // The same components, letter by letter, and the same closing slash.
  predicate SameSpelling(a: Text, b: Text) {
    Components(a) == Components(b) && EndsInSlash(a) == EndsInSlash(b)
  }

  // No dot components behind the mounted drive, and one slash after it.
  predicate Tidy(mounted: Text)
    requires OnMount(mounted)
  {
    var n := StripSlashes(mounted);
    DriveAt(n).Some? && Dotless(Components(MountedTail(n))) && !Doubled(MountedTail(n))
  }

  // Whether an identity across the middle spelling is one of the outer two.
  predicate Carries(first: Text, middle: Text, last: Text) {
    if OnWindows(middle) then
      if OnMount(first) && OnMount(last) then SameSpelling(first, last)
      else if OnWindows(first) && Plain(last) then SameSpelling(first, middle)
      else if Plain(first) && OnWindows(last) then SameSpelling(middle, last)
      else (OnMount(first) ==> !Plain(last)) && (Plain(first) ==> !OnMount(last))
    else if OnMount(middle) then
      (OnWindows(first) && !OnWindows(last) ==> OnMount(last) && Tidy(last))
      && (OnWindows(last) && !OnWindows(first) ==> OnMount(first) && Tidy(first))
    else true
  }

  // ---- Components of a longer text ----

  function Extended(cs: seq<Text>, starts: bool, unit: Unit): seq<Text> {
    if unit == SLASH then cs
    else if starts || cs == [] then cs + [[unit]]
    else cs[..|cs| - 1] + [cs[|cs| - 1] + [unit]]
  }

  lemma ComponentsStep(init: Text, unit: Unit)
    ensures Components(init + [unit]) == Extended(Components(init), init == [] || EndsInSlash(init), unit)
  {
    assert (init + [unit])[..|init|] == init;
  }

  lemma ExtendedAfter(before: seq<Text>, cs: seq<Text>, starts: bool, unit: Unit)
    requires cs == [] ==> starts
    ensures Extended(before + cs, starts, unit) == before + Extended(cs, starts, unit)
  {
    if !starts { assert (before + cs)[..|before + cs| - 1] == before + cs[..|cs| - 1]; }
  }

  lemma {:induction false} ComponentsAppend(s: Text, t: Text)
    requires s == [] || EndsInSlash(s)
    ensures Components(s + t) == Components(s) + Components(t)
  {
    if t == [] {
      assert s + t == s;
    } else {
      var init, unit := t[..|t| - 1], t[|t| - 1];
      ComponentsAppend(s, init);
      assert t == init + [unit] && s + t == (s + init) + [unit];
      ComponentsStep(s + init, unit);
      ComponentsStep(init, unit);
      EndsAlike(s, init);
      ExtendedAfter(Components(s), Components(init), init == [] || EndsInSlash(init), unit);
    }
  }

  lemma EndsAlike(s: Text, init: Text)
    requires s == [] || EndsInSlash(s)
    ensures (s + init == [] || EndsInSlash(s + init)) == (init == [] || EndsInSlash(init))
  {
    if init == [] { assert s + init == s; }
  }

  lemma ComponentsOver(s: Text, t: Text)
    ensures Components(s + [SLASH] + t) == Components(s) + Components(t)
  {
    var root := s + [SLASH];
    assert root[..|root| - 1] == s;
    ComponentsAppend(root, t);
  }

  lemma OneComponent(c: Text)
    requires Component(c)
    ensures Components(c) == [c]
  {
    ComponentAfterSlash([], c);
    assert [] + c == c;
  }

  // ---- Splitting at backslashes too ----

  function SplitAll(cs: seq<Text>): seq<Text> {
    if cs == [] then [] else SplitAll(cs[..|cs| - 1]) + Components(Slashes(cs[|cs| - 1]))
  }

  lemma SplitAppend(cs: seq<Text>, c: Text)
    ensures SplitAll(cs + [c]) == SplitAll(cs) + Components(Slashes(c))
  {
    assert (cs + [c])[..|cs|] == cs;
  }

  lemma {:induction false} AtLastSlash(s: Text) returns (before: Text, after: Text)
    requires SLASH in s
    ensures s == before + [SLASH] + after && SLASH !in after
  {
    var init, unit := s[..|s| - 1], s[|s| - 1];
    assert s == init + [unit];
    if unit == SLASH {
      before, after := init, [];
    } else {
      before, after := AtLastSlash(init);
      after := after + [unit];
    }
  }

  lemma SlashedSlash(before: Text, after: Text)
    ensures Slashes(before + [SLASH] + after) == Slashes(before) + [SLASH] + Slashes(after)
  {
  }

  lemma SlashedOver(before: Text, after: Text)
    requires SLASH !in after && Components(Slashes(before)) == SplitAll(Components(before))
    ensures Components(Slashes(before + [SLASH] + after)) == SplitAll(Components(before + [SLASH] + after))
  {
    ComponentsOver(before, after);
    SlashedSlash(before, after);
    ComponentsOver(Slashes(before), Slashes(after));
    if after == [] {
      assert Components(before) + [] == Components(before);
      assert Components(Slashes(before)) + [] == Components(Slashes(before));
    } else {
      OneComponent(after);
      SplitAppend(Components(before), after);
    }
  }

  lemma SlashedWord(s: Text)
    requires SLASH !in s
    ensures Components(Slashes(s)) == SplitAll(Components(s))
  {
    if s != [] {
      OneComponent(s);
      SplitAppend([], s);
      assert [] + [s] == [s];
    }
  }

  // The components of a text with its backslashes turned depend on its components only.
  lemma {:induction false} SlashedComponents(s: Text)
    ensures Components(Slashes(s)) == SplitAll(Components(s))
    decreases |s|
  {
    if SLASH in s {
      var before, after := AtLastSlash(s);
      SlashedComponents(before);
      SlashedOver(before, after);
    } else {
      SlashedWord(s);
    }
  }

  lemma {:induction false} SplitKeepsPlain(cs: seq<Text>, c: Text)
    requires c in cs && Component(c) && BACKSLASH !in c
    ensures c in SplitAll(cs)
  {
    var init, last := cs[..|cs| - 1], cs[|cs| - 1];
    if last == c {
      assert Slashes(c) == c;
      OneComponent(c);
    } else {
      assert cs == init + [last];
      SplitKeepsPlain(init, c);
    }
  }

  // ---- Normal forms ----

  lemma {:induction false} ResolveKeepsComponents(cs: seq<Text>, allowAbove: bool)
    requires forall c :: c in cs ==> Component(c)
    ensures forall c :: c in Resolve(cs, allowAbove) ==> Component(c)
  {
    if cs != [] {
      assert cs[|cs| - 1] in cs;
      ResolveKeepsComponents(cs[..|cs| - 1], allowAbove);
    }
  }

  lemma NormalIsRooted(s: Text)
    ensures Rooted(PosixNormalize(s)) <==> Rooted(s)
  {
    StartsWithSlash(s);
    StartsWithSlash(PosixNormalize(s));
    if s != [] && s[0] != SLASH {
      ComponentsAreComponents(s);
      ResolveKeepsComponents(Components(s), true);
      JoinStart(Resolve(Components(s), true));
    }
  }

  lemma StartsWithSlash(s: Text)
    ensures Rooted(s) <==> s != [] && s[0] == SLASH
  {
  }

  function Spelling(rooted: bool, cs: seq<Text>, closed: bool): Text {
    (if rooted then [SLASH] else []) + Join(cs, SLASH) + (if closed then [SLASH] else [])
  }

  // Without dot components, the normal form is the spelling with single slashes.
  lemma NormalOfDotless(s: Text)
    requires Components(s) != [] && Dotless(Components(s))
    ensures PosixNormalize(s) == Spelling(Rooted(s), Components(s), EndsInSlash(s))
  {
    ResolveKeepsPlain(Components(s), !Rooted(s));
    ComponentsAreComponents(s);
    JoinKeepsComponents(Components(s));
  }

  lemma ClosedKeepsSpelling(body: Text, closed: bool)
    requires body != [] && !EndsInSlash(body)
    ensures (var s := body + (if closed then [SLASH] else []); Components(s) == Components(body) && EndsInSlash(s) == closed)
  {
    if closed { ComponentsStep(body, SLASH); } else { assert body + [] == body; }
  }

  lemma RootedKeepsComponents(rooted: bool, joined: Text)
    ensures Components((if rooted then [SLASH] else []) + joined) == Components(joined)
  {
    if rooted {
      ComponentsStep([], SLASH);
      assert [] + [SLASH] == [SLASH];
      ComponentsAppend([SLASH], joined);
    } else {
      assert [] + joined == joined;
    }
  }

  lemma SpellingKeeps(rooted: bool, cs: seq<Text>, closed: bool)
    requires cs != [] && forall c :: c in cs ==> Component(c)
    ensures Components(Spelling(rooted, cs, closed)) == cs && EndsInSlash(Spelling(rooted, cs, closed)) == closed
  {
    var joined := Join(cs, SLASH);
    JoinKeepsComponents(cs);
    RootedKeepsComponents(rooted, joined);
    var body := (if rooted then [SLASH] else []) + joined;
    assert body[|body| - 1] == joined[|joined| - 1];
    ClosedKeepsSpelling(body, closed);
  }

  lemma NormalKeepsSpelling(s: Text)
    requires Components(s) != [] && Dotless(Components(s))
    ensures Components(PosixNormalize(s)) == Components(s) && EndsInSlash(PosixNormalize(s)) == EndsInSlash(s)
  {
    NormalOfDotless(s);
    ComponentsAreComponents(s);
    SpellingKeeps(Rooted(s), Components(s), EndsInSlash(s));
  }

  lemma SameNormalIff(a: Text, b: Text)
    requires Components(a) != [] && Dotless(Components(a)) && Components(b) != [] && Dotless(Components(b))
    requires Rooted(a) == Rooted(b)
    ensures PosixNormalize(a) == PosixNormalize(b) <==> SameSpelling(a, b)
  {
    NormalKeepsSpelling(a);
    NormalKeepsSpelling(b);
    NormalOfDotless(a);
    NormalOfDotless(b);
  }

  // ---- Windows spellings ----

  lemma WindowsSlashed(w: Text)
    requires WindowsSpelling(w)
    ensures Components(Slashes(w)) == [[w[0], COLON]] + Components(Tail(w))
  {
    var drive: Text := [w[0], COLON];
    assert Slashes(w) == drive + [SLASH] + Tail(w);
    ComponentsOver(drive, Tail(w));
    OneComponent(drive);
  }

  lemma WindowsIsDotless(w: Text)
    requires OnWindows(w)
    ensures WindowsSpelling(w) && !Rooted(w) && Trim(w) == w && Components(w) != [] && Dotless(Components(w))
  {
    WindowsSuffix(w);
    WindowsSlashed(w);
    SlashedComponents(w);
    assert forall c :: c in SplitAll(Components(w)) ==> c == [w[0], COLON] || c in Components(Tail(w));
    NotSplit(Components(w), [DOT]);
    NotSplit(Components(w), DOTDOT);
  }

  lemma NotSplit(cs: seq<Text>, c: Text)
    requires Component(c) && BACKSLASH !in c && c !in SplitAll(cs)
    ensures c !in cs
  {
    if c in cs { SplitKeepsPlain(cs, c); }
  }

  // Two Windows spellings with one normal form have one drive and the same components.
  lemma NormalWindowsAgree(fold: Unit -> Unit, a: Text, b: Text)
    requires OnWindows(a) && OnWindows(b) && PosixNormalize(a) == PosixNormalize(b)
    ensures SameDrivePath(fold, DriveIdentity(a).value, DriveIdentity(b).value)
  {
    WindowsIsDotless(a);
    WindowsIsDotless(b);
    SameNormalIff(a, b);
    SlashedComponents(a);
    SlashedComponents(b);
    WindowsSlashed(a);
    WindowsSlashed(b);
    var left, right := [[a[0], COLON]] + Components(Tail(a)), [[b[0], COLON]] + Components(Tail(b));
    assert left[0][0] == right[0][0] && left[1..] == right[1..];
    WindowsSuffix(a);
    WindowsSuffix(b);
  }

  // ---- Mounted spellings ----

  // What stands before the components behind the drive.
  function Mount(n: Text): seq<Text>
    requires DriveAt(n).Some?
  {
    var at := DriveAt(n).value;
    if at == 5 then [[0x6D, 0x6E, 0x74], [n[5]]] else [[n[1]]]
  }

  lemma DeepRoot(u: Unit)
    requires u != SLASH
    ensures Components(MNT + [u]) == [[0x6D, 0x6E, 0x74], [u]]
  {
    var mnt: Text := [0x6D, 0x6E, 0x74];
    OneComponent(mnt);
    OneComponent([u]);
    ComponentsOver(mnt, [u]);
    RootedKeepsComponents(true, mnt + [SLASH] + [u]);
    assert MNT + [u] == [SLASH] + (mnt + [SLASH] + [u]);
  }

  lemma MountedRoot(n: Text)
    requires DriveAt(n).Some?
    ensures Components(n[..DriveAt(n).value + 1]) == Mount(n)
  {
    if DriveAt(n).value == 5 {
      assert n[..6] == MNT + [n[5]];
      DeepRoot(n[5]);
    } else {
      assert n[..2] == [SLASH] + [n[1]];
      OneComponent([n[1]]);
      RootedKeepsComponents(true, [n[1]]);
    }
  }

  lemma BehindTheDrive(n: Text)
    requires DriveAt(n).Some?
    ensures Components(n) == Mount(n) + Components(MountedTail(n))
  {
    MountedRoot(n);
    var at := DriveAt(n).value;
    if |n| == at + 1 {
      assert n[..at + 1] == n;
    } else {
      assert n == n[..at + 1] + [SLASH] + n[at + 2..];
      ComponentsOver(n[..at + 1], n[at + 2..]);
    }
  }

  lemma MountedComponents(m: Text)
    requires OnMount(m)
    ensures (var n := StripSlashes(m);
             && DriveAt(n).Some? && Rooted(m) && Trim(m) == m
             && Components(m) == Mount(n) + Components(MountedTail(n)))
  {
    var n := StripSlashes(m);
    StripKeepsComponents(m);
    assert n[0] == m[0];
    StartsWithSlash(m);
    BehindTheDrive(n);
  }

  lemma MountIsPlain(n: Text)
    requires DriveAt(n).Some?
    ensures Dotless(Mount(n)) && Mount(n) != []
  {
    assert LowerLetter(n[DriveAt(n).value]);
  }

  lemma TidyIsDotless(m: Text)
    requires OnMount(m) && Tidy(m)
    ensures Components(m) != [] && Dotless(Components(m))
  {
    MountedComponents(m);
    MountIsPlain(StripSlashes(m));
  }

  // The mounted drive and what follows it can be read off the components.
  lemma SameComponentsSameMount(a: Text, b: Text)
    requires OnMount(a) && OnMount(b) && Components(a) == Components(b)
    ensures (var n, k := StripSlashes(a), StripSlashes(b);
             && DriveAt(n).Some? && DriveAt(k).Some? && n[DriveAt(n).value] == k[DriveAt(k).value]
             && Components(MountedTail(n)) == Components(MountedTail(k)))
  {
    MountedComponents(a);
    MountedComponents(b);
    var n, k := StripSlashes(a), StripSlashes(b);
    var at, bt := Mount(n), Mount(k);
    assert |at[0]| == |bt[0]| by { assert Components(a)[0] == at[0] && Components(b)[0] == bt[0]; }
    assert |at| == |bt|;
    assert at == Components(a)[..|at|] == bt;
    assert Components(MountedTail(n)) == Components(a)[|at|..];
    assert Components(MountedTail(k)) == Components(b)[|bt|..];
  }

  // A mounted spelling that matches a Windows one is tidy.
  lemma MatchedIsTidy(fold: Unit -> Unit, windows: Text, mounted: Text)
    requires KeepsSlash(fold) && KeepsDots(fold) && OnWindows(windows) && OnMount(mounted)
    requires SameDrivePath(fold, DriveIdentity(windows).value, DriveIdentity(mounted).value)
    ensures Tidy(mounted)
  {
    CrossMatchIsComponents(fold, windows, mounted);
  }

  lemma TidyAgree(fold: Unit -> Unit, a: Text, b: Text)
    requires OnMount(a) && OnMount(b) && Tidy(a) && Tidy(b) && PosixNormalize(a) == PosixNormalize(b)
    ensures SameDrivePath(fold, DriveIdentity(a).value, DriveIdentity(b).value)
  {
    MountedComponents(a);
    MountedComponents(b);
    TidyIsDotless(a);
    TidyIsDotless(b);
    SameNormalIff(a, b);
    SameComponentsSameMount(a, b);
    MountedSuffix(a);
    MountedSuffix(b);
  }

  // ---- One link of a chain, by the surfaces it joins ----

  lemma WindowsMatches(fold: Unit -> Unit, w: Text, x: Text)
    requires OnWindows(w)
    ensures SameCrossSurfacePathIdentity(fold, w, x)
            <==> if Plain(x) then Trim(x) == x && PosixNormalize(w) == PosixNormalize(x)
                 else SameDrivePath(fold, DriveIdentity(w).value, DriveIdentity(x).value)
  {
    WindowsIsDotless(w);
    NormalIsRooted(w);
    NormalIsRooted(x);
  }

  lemma OthersMatch(fold: Unit -> Unit, a: Text, b: Text)
    requires !OnWindows(a) && !OnWindows(b)
    ensures SameCrossSurfacePathIdentity(fold, a, b)
            <==> PosixNormalize(a) == PosixNormalize(b) && (Rooted(a) || (Trim(a) == a && Trim(b) == b))
  {
    NormalIsRooted(a);
    NormalIsRooted(b);
  }

  lemma PlainOnWindowsIsBare(fold: Unit -> Unit, w: Text, x: Text)
    requires OnWindows(w) && Plain(x) && SameCrossSurfacePathIdentity(fold, w, x)
    ensures !Rooted(x) && Trim(x) == x && PosixNormalize(w) == PosixNormalize(x)
  {
    WindowsMatches(fold, w, x);
    WindowsIsDotless(w);
    NormalIsRooted(w);
    NormalIsRooted(x);
  }

  // ---- Chains ----

  lemma ThroughWindows(fold: Unit -> Unit, a: Text, b: Text, c: Text)
    requires KeepsSlash(fold) && KeepsDots(fold) && OnWindows(b)
    requires SameCrossSurfacePathIdentity(fold, a, b) && SameCrossSurfacePathIdentity(fold, b, c)
    ensures SameCrossSurfacePathIdentity(fold, a, c) <==> Carries(a, b, c)
  {
    CrossSurfaceIsSymmetric(fold, a, b);
    WindowsMatches(fold, b, a);
    WindowsMatches(fold, b, c);
    if Plain(a) { PlainOnWindowsIsBare(fold, b, a); }
    if Plain(c) { PlainOnWindowsIsBare(fold, b, c); }
    if OnMount(a) && OnMount(c) {
      BothMounted(fold, a, b, c);
    } else if OnWindows(a) && Plain(c) {
      WindowsAndPlain(fold, a, b, c);
    } else if Plain(a) && OnWindows(c) {
      CrossSurfaceIsSymmetric(fold, a, c);
      WindowsAndPlain(fold, c, b, a);
    } else if OnWindows(a) {
      WindowsMatches(fold, a, c);
    } else if OnWindows(c) {
      CrossSurfaceIsSymmetric(fold, a, c);
      WindowsMatches(fold, c, a);
    } else {
      OthersMatch(fold, a, c);
      if OnMount(a) { MountedComponents(a); }
      if OnMount(c) { MountedComponents(c); }
      NormalIsRooted(a);
      NormalIsRooted(c);
    }
  }

  lemma BothMounted(fold: Unit -> Unit, a: Text, b: Text, c: Text)
    requires KeepsSlash(fold) && KeepsDots(fold) && OnWindows(b) && OnMount(a) && OnMount(c)
    requires SameDrivePath(fold, DriveIdentity(b).value, DriveIdentity(a).value)
    requires SameDrivePath(fold, DriveIdentity(b).value, DriveIdentity(c).value)
    ensures SameCrossSurfacePathIdentity(fold, a, c) <==> SameSpelling(a, c)
  {
    MatchedIsTidy(fold, b, a);
    MatchedIsTidy(fold, b, c);
    TidyIsDotless(a);
    TidyIsDotless(c);
    MountedComponents(a);
    MountedComponents(c);
    SameNormalIff(a, c);
    OthersMatch(fold, a, c);
  }

  lemma WindowsAndPlain(fold: Unit -> Unit, a: Text, b: Text, c: Text)
    requires OnWindows(a) && OnWindows(b) && Plain(c) && Trim(c) == c && PosixNormalize(b) == PosixNormalize(c)
    ensures SameCrossSurfacePathIdentity(fold, a, c) <==> SameSpelling(a, b)
  {
    WindowsIsDotless(a);
    WindowsIsDotless(b);
    SameNormalIff(a, b);
    WindowsMatches(fold, a, c);
  }

  lemma ThroughMount(fold: Unit -> Unit, a: Text, b: Text, c: Text)
    requires KeepsSlash(fold) && KeepsDots(fold) && OnMount(b)
    requires SameCrossSurfacePathIdentity(fold, a, b) && SameCrossSurfacePathIdentity(fold, b, c)
    ensures SameCrossSurfacePathIdentity(fold, a, c) <==> Carries(a, b, c)
  {
    CrossSurfaceIsSymmetric(fold, a, c);
    CrossSurfaceIsSymmetric(fold, b, c);
    MountedComponents(b);
    if OnWindows(a) && OnWindows(c) {
      WindowsMatches(fold, a, b);
      WindowsMatches(fold, c, b);
      WindowsMatches(fold, a, c);
    } else if OnWindows(a) {
      WindowsToRooted(fold, a, b, c);
    } else if OnWindows(c) {
      CrossSurfaceIsSymmetric(fold, a, b);
      WindowsToRooted(fold, c, b, a);
    } else {
      OthersMatch(fold, a, b);
      OthersMatch(fold, b, c);
      OthersMatch(fold, a, c);
      NormalIsRooted(a);
      NormalIsRooted(b);
      NormalIsRooted(c);
    }
  }

  lemma WindowsToRooted(fold: Unit -> Unit, a: Text, b: Text, c: Text)
    requires KeepsSlash(fold) && KeepsDots(fold) && OnWindows(a) && OnMount(b) && !OnWindows(c)
    requires SameCrossSurfacePathIdentity(fold, a, b) && SameCrossSurfacePathIdentity(fold, b, c)
    ensures SameCrossSurfacePathIdentity(fold, a, c) <==> OnMount(c) && Tidy(c)
  {
    WindowsMatches(fold, a, b);
    WindowsMatches(fold, a, c);
    OthersMatch(fold, b, c);
    MountedComponents(b);
    NormalIsRooted(b);
    NormalIsRooted(c);
    if Plain(c) {
      WindowsIsDotless(a);
      NormalIsRooted(a);
    } else {
      MatchedIsTidy(fold, a, b);
      if Tidy(c) { TidyAgree(fold, b, c); }
      if SameDrivePath(fold, DriveIdentity(a).value, DriveIdentity(c).value) { MatchedIsTidy(fold, a, c); }
    }
  }

  lemma ThroughPlain(fold: Unit -> Unit, a: Text, b: Text, c: Text)
    requires Plain(b) && SameCrossSurfacePathIdentity(fold, a, b) && SameCrossSurfacePathIdentity(fold, b, c)
    ensures SameCrossSurfacePathIdentity(fold, a, c)
  {
    CrossSurfaceIsSymmetric(fold, a, b);
    CrossSurfaceIsSymmetric(fold, a, c);
    CrossSurfaceIsSymmetric(fold, b, c);
    NormalIsRooted(a);
    NormalIsRooted(b);
    NormalIsRooted(c);
    if OnWindows(a) { PlainOnWindowsIsBare(fold, a, b); }
    if OnWindows(c) { PlainOnWindowsIsBare(fold, c, b); }
    if OnWindows(a) && OnWindows(c) {
      NormalWindowsAgree(fold, a, c);
    } else if OnWindows(a) {
      OthersMatch(fold, b, c);
      PlainAfterPlain(fold, a, b, c);
    } else if OnWindows(c) {
      OthersMatch(fold, a, b);
      PlainAfterPlain(fold, c, b, a);
    } else {
      OthersMatch(fold, a, b);
      OthersMatch(fold, b, c);
      OthersMatch(fold, a, c);
    }
  }

  lemma PlainAfterPlain(fold: Unit -> Unit, w: Text, b: Text, x: Text)
    requires OnWindows(w) && !OnWindows(x) && !Rooted(b)
    requires PosixNormalize(w) == PosixNormalize(b) == PosixNormalize(x) && Trim(x) == x
    ensures SameCrossSurfacePathIdentity(fold, w, x)
  {
    NormalIsRooted(b);
    NormalIsRooted(x);
    if OnMount(x) { MountedComponents(x); }
    WindowsMatches(fold, w, x);
  }

  // For every middle spelling: the outer two are identical exactly under the
  // condition its surface sets on surfaces, drives and components.
  lemma CrossSurfaceCarriesIff(fold: Unit -> Unit, first: Text, middle: Text, last: Text)
    requires KeepsSlash(fold) && KeepsDots(fold)
    requires SameCrossSurfacePathIdentity(fold, first, middle) && SameCrossSurfacePathIdentity(fold, middle, last)
    ensures SameCrossSurfacePathIdentity(fold, first, last) <==> Carries(first, middle, last)
  {
    if OnWindows(middle) {
      ThroughWindows(fold, first, middle, last);
    } else if OnMount(middle) {
      ThroughMount(fold, first, middle, last);
    } else {
      ThroughPlain(fold, first, middle, last);
    }
  }

  // ---- Chains that break ----

  // A dot component between a drive and one letter.
  lemma DottedComponents(root: Text)
    ensures Components(root + [SLASH, DOT, SLASH, 0x61]) == Components(root) + [[DOT], [0x61]]
  {
    var dotted: Text := [DOT] + [SLASH] + [0x61];
    assert root + [SLASH, DOT, SLASH, 0x61] == root + [SLASH] + dotted;
    ComponentsOver(root, dotted);
    ComponentsOver([DOT], [0x61]);
    OneComponent([DOT]);
    OneComponent([0x61]);
  }

  lemma PlainComponents(root: Text)
    ensures Components(root + [SLASH, 0x61]) == Components(root) + [[0x61]]
  {
    assert root + [SLASH, 0x61] == root + [SLASH] + [0x61];
    ComponentsOver(root, [0x61]);
    OneComponent([0x61]);
  }

  lemma DotsResolve(c: Text, allowAbove: bool)
    requires c != [DOT] && c != DOTDOT
    ensures Resolve([c, [DOT], [0x61]], allowAbove) == Resolve([c, [0x61]], allowAbove)
  {
    assert [c, [DOT], [0x61]][..2] == [c, [DOT]] && [c, [DOT]][..1] == [c] && [c, [0x61]][..1] == [c];
  }

  lemma DottedIsNormalised(root: Text, c: Text)
    requires Components(root) == [c] && c != [DOT] && c != DOTDOT && root != []
    ensures PosixNormalize(root + [SLASH, DOT, SLASH, 0x61]) == PosixNormalize(root + [SLASH, 0x61])
  {
    DottedComponents(root);
    PlainComponents(root);
    assert [c] + [[DOT], [0x61]] == [c, [DOT], [0x61]] && [c] + [[0x61]] == [c, [0x61]];
    DotsResolve(c, root[0] != SLASH);
  }

  // c:/a matches /c/a and that matches /c/./a, which c:/a does not match.
  lemma BreaksBehindAMount(fold: Unit -> Unit) returns (first: Text, middle: Text, last: Text)
    requires KeepsSlash(fold) && KeepsDots(fold)
    ensures OnWindows(first) && OnMount(middle)
    ensures SameCrossSurfacePathIdentity(fold, first, middle) && SameCrossSurfacePathIdentity(fold, middle, last)
    ensures !SameCrossSurfacePathIdentity(fold, first, last)
  {
    first := WindowsLetter();
    middle := MountedLetter(0x61);
    MountedLetterIdentity(0x61);
    var root: Text := [SLASH, 0x63];
    last := root + [SLASH, DOT, SLASH, 0x61];
    assert middle == root + [SLASH, 0x61];
    assert root == [SLASH] + [0x63];
    OneComponent([0x63]);
    RootedKeepsComponents(true, [0x63]);
    DottedIsNormalised(root, [0x63]);
    DottedMountIsUntidy(last);
    OthersMatch(fold, middle, last);
    CrossSurfaceCarriesIff(fold, first, middle, last);
  }

  lemma DottedMountIsUntidy(s: Text)
    requires s == [SLASH, 0x63] + [SLASH, DOT, SLASH, 0x61]
    ensures !OnWindows(s) && Rooted(s) && (OnMount(s) ==> !Tidy(s))
  {
    assert s == [SLASH, 0x63, SLASH, DOT, SLASH, 0x61] && StripSlashes(s) == s;
    assert s[1] != MNT[1];
    assert DriveAt(s) == Some(1);
    assert MountedTail(s) == [DOT] + [SLASH] + [0x61];
    ComponentsOver([DOT], [0x61]);
    OneComponent([DOT]);
    assert [DOT] in Components(MountedTail(s)) by { assert Components(MountedTail(s))[0] == [DOT]; }
  }

  lemma DottedDriveMatches(fold: Unit -> Unit, first: Text, middle: Text)
    requires first == [0x63, COLON] + [SLASH, DOT, SLASH, 0x61] && middle == [0x63, COLON] + [SLASH, 0x61]
    requires OnWindows(middle)
    ensures Plain(first) && SameCrossSurfacePathIdentity(fold, first, middle)
  {
    var root: Text := [0x63, COLON];
    OneComponent(root);
    DottedIsNormalised(root, root);
    DottedDriveIsPlain(first);
    WindowsMatches(fold, middle, first);
    CrossSurfaceIsSymmetric(fold, first, middle);
  }

  // No path without a drive identity is carried across a Windows spelling to a mounted one.
  lemma PlainReachesNoMount(fold: Unit -> Unit, first: Text, middle: Text, last: Text)
    requires KeepsSlash(fold) && KeepsDots(fold) && Plain(first) && OnWindows(middle) && OnMount(last)
    requires SameCrossSurfacePathIdentity(fold, first, middle) && SameCrossSurfacePathIdentity(fold, middle, last)
    ensures !SameCrossSurfacePathIdentity(fold, first, last)
  {
    CrossSurfaceCarriesIff(fold, first, middle, last);
  }

  lemma OneDriveOneSuffix(fold: Unit -> Unit, a: Text, b: Text, drive: Unit, suffix: Text)
    requires DriveIdentity(a) == Some(Identity(drive, suffix, Windows))
    requires DriveIdentity(b) == Some(Identity(drive, suffix, Mounted))
    ensures SameCrossSurfacePathIdentity(fold, a, b)
  {
  }

  // c:/./a has no drive identity and matches c:/a, which matches /c/a; c:/./a does not.
  lemma BreaksBeforeAPlainPath(fold: Unit -> Unit) returns (first: Text, middle: Text, last: Text)
    requires KeepsSlash(fold) && KeepsDots(fold)
    ensures Plain(first) && OnWindows(middle) && OnMount(last)
    ensures SameCrossSurfacePathIdentity(fold, first, middle) && SameCrossSurfacePathIdentity(fold, middle, last)
    ensures !SameCrossSurfacePathIdentity(fold, first, last)
  {
    first := [0x63, COLON] + [SLASH, DOT, SLASH, 0x61];
    middle := WindowsLetter();
    last := MountedLetter(0x61);
    MountedLetterIdentity(0x61);
    assert middle == [0x63, COLON] + [SLASH, 0x61];
    DottedDriveMatches(fold, first, middle);
    OneDriveOneSuffix(fold, middle, last, 0x63, [0x61]);
    PlainReachesNoMount(fold, first, middle, last);
  }

  lemma DottedDriveIsPlain(s: Text)
    requires s == [0x63, COLON] + [SLASH, DOT, SLASH, 0x61]
    ensures Plain(s) && Trim(s) == s
  {
    assert WindowsSpelling(s) && Tail(s) == [DOT] + [SLASH] + [0x61];
    ComponentsOver([DOT], [0x61]);
    OneComponent([DOT]);
    assert [DOT] in Components(Tail(s)) by { assert Components(Tail(s))[0] == [DOT]; }
  }
}
