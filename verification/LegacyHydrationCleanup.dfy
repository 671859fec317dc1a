/** Cleanup of legacy hydration: what it may remove, and whether a second run changes anything. */
module LegacyHydrationCleanup {
  import opened Prelude
  import opened JsText
  import opened PathComponents

  // A path below the project root; the root itself is the empty path.
  type Path = seq<Text>

  datatype Node = File(content: Text) | Directory | Link

  type Disk = map<Path, Node>

  datatype ManifestEntry = ManifestEntry(path: Text, checksum: Text)

  datatype Manifest = Manifest(productId: Option<Text>, files: seq<ManifestEntry>)

  // What does not change during a cleanup: where the root is, the parser, the
  // digest, git's index and whatever lies behind links.
  datatype Surroundings = Surroundings(
    root: Path,
    parse: Text -> Option<Manifest>,
    sha256: Text -> Text,
    tracked: Text -> bool,
    beyond: Path -> bool)

  datatype Reason =
    | LinkOrPathEscape | TrackedFile | ModifiedFile | ChecksumMismatch
    | ManifestCorrupt | ForeignManifest | CleanupConflicts

  datatype CleanupRecord = CleanupRecord(path: Text, reason: Reason)

  datatype Outcome =
    | Blocked
    | NotHydrated
    | UnsafeTarget(path: Text)
    | Finished(removed: seq<Text>, preserved: seq<CleanupRecord>, conflicts: seq<CleanupRecord>)

  const PRODUCT_ID: Text := Ascii("moon-relay-kernel-project-hydration")
  const MANIFEST_NAME: Text := Ascii(".moon-relay/kernel-profile-manifest.json")
  const MANIFEST_PATH: Path := [Ascii(".moon-relay"), Ascii("kernel-profile-manifest.json")]

  const DIRECTORIES: seq<Path> :=
    [[Ascii(".agents"), Ascii("skills"), Ascii("moon-relay-kernel")],
     [Ascii(".agents"), Ascii("skills")],
     [Ascii(".agents")],
     [Ascii(".codex")],
     [Ascii(".moon-relay")]]

  // ---- One file ----

  // safeJoin: where a listed path leads, if that is inside the root.
  function Target(env: Surroundings, relativePath: Text): Option<Path> {
    var start := if StartsWith(relativePath, [SLASH]) then [] else env.root;
    var target := Resolve(start + Components(relativePath), false);
    if env.root <= target then Some(target[|env.root|..]) else None
  }

  predicate LinkAbove(disk: Disk, path: Path) {
    exists k :: 0 <= k < |path| && path[..k] in disk && disk[path[..k]].Link?
  }

  predicate Exists(env: Surroundings, disk: Disk, path: Path) {
    if LinkAbove(disk, path) then env.beyond(path) else path == [] || path in disk
  }

  predicate PhysicallyContained(disk: Disk, path: Path) {
    !LinkAbove(disk, path) && path in disk && disk[path].File?
  }

  datatype Decision = Absent | Escapes | Tracked | Modified | Removable

  function Decide(env: Surroundings, disk: Disk, entry: ManifestEntry, target: Path): Decision {
    if !Exists(env, disk, target) then Absent
    else if !PhysicallyContained(disk, target) then Escapes
    else if env.tracked(Slashes(entry.path)) then Tracked
    else if env.sha256(disk[target].content) != entry.checksum then Modified
    else Removable
  }

  // ---- The loop over the listed files ----

  datatype Progress = Progress(
    disk: Disk, removed: seq<Text>, preserved: seq<CleanupRecord>, conflicts: seq<CleanupRecord>, thrown: Option<Text>)

  function Take(env: Surroundings, before: Progress, entry: ManifestEntry): Progress {
    var path := Slashes(entry.path);
    var target := Target(env, path);
    if before.thrown.Some? then before
    else if target.None? then before.(thrown := Some(path))
    else
      match Decide(env, before.disk, entry, target.value)
      case Absent => before
      case Escapes =>
        before.(preserved := before.preserved + [CleanupRecord(path, LinkOrPathEscape)],
                conflicts := before.conflicts + [CleanupRecord(path, LinkOrPathEscape)])
      case Tracked => before.(preserved := before.preserved + [CleanupRecord(path, TrackedFile)])
      case Modified =>
        before.(preserved := before.preserved + [CleanupRecord(path, ModifiedFile)],
                conflicts := before.conflicts + [CleanupRecord(path, ChecksumMismatch)])
      case Removable => before.(disk := before.disk - {target.value}, removed := before.removed + [path])
  }

  function TakeAll(env: Surroundings, disk: Disk, entries: seq<ManifestEntry>): Progress {
    if entries == [] then Progress(disk, [], [], [], None)
    else Take(env, TakeAll(env, disk, entries[..|entries| - 1]), entries[|entries| - 1])
  }

  predicate EmptyDirectory(disk: Disk, directory: Path) {
    && directory in disk && disk[directory].Directory?
    && !LinkAbove(disk, directory)
    && forall p :: p in disk ==> !(directory < p)
  }

  function RemoveDirectory(disk: Disk, directory: Path): Disk {
    if EmptyDirectory(disk, directory) then disk - {directory} else disk
  }

  function RemoveDirectories(disk: Disk, directories: seq<Path>): Disk {
    if directories == [] then disk
    else RemoveDirectory(RemoveDirectories(disk, directories[..|directories| - 1]), directories[|directories| - 1])
  }

  function Collision(reason: Reason): Outcome {
    Finished([], [], [CleanupRecord(MANIFEST_NAME, reason)])
  }

  // The manifest on the disk, when the cleanup may act on it.
  function ReadManifest(env: Surroundings, disk: Disk): Result<Manifest, Outcome> {
    if !Exists(env, disk, MANIFEST_PATH) then Err(NotHydrated)
    else if !PhysicallyContained(disk, MANIFEST_PATH) then Err(Collision(LinkOrPathEscape))
    else
      match env.parse(disk[MANIFEST_PATH].content)
      case None => Err(Collision(ManifestCorrupt))
      case Some(manifest) => if manifest.productId != Some(PRODUCT_ID) then Err(Collision(ForeignManifest)) else Ok(manifest)
  }

  // The cleanup acts on a manifest that is a file in the project and names this product, and on no other.
  lemma ReadManifestIff(env: Surroundings, disk: Disk)
    ensures (var read := ReadManifest(env, disk);
             if !Exists(env, disk, MANIFEST_PATH) then read == Err(NotHydrated)
             else if !PhysicallyContained(disk, MANIFEST_PATH) then
               read == Err(Finished([], [], [CleanupRecord(MANIFEST_NAME, LinkOrPathEscape)]))
             else match env.parse(disk[MANIFEST_PATH].content)
               case None => read == Err(Finished([], [], [CleanupRecord(MANIFEST_NAME, ManifestCorrupt)]))
               case Some(manifest) =>
                 (read == Ok(manifest) <==> manifest.productId == Some(PRODUCT_ID))
                 && (read.Err? ==> read.error == Finished([], [], [CleanupRecord(MANIFEST_NAME, ForeignManifest)])))
  {
  }

  function Finish(progress: Progress): (Disk, Outcome) {
    if progress.thrown.Some? then (progress.disk, UnsafeTarget(progress.thrown.value))
    else if progress.conflicts == [] then
      (RemoveDirectories(progress.disk - {MANIFEST_PATH}, DIRECTORIES),
       Finished(progress.removed + [MANIFEST_NAME], progress.preserved, progress.conflicts))
    else
      (RemoveDirectories(progress.disk, DIRECTORIES),
       Finished(progress.removed, progress.preserved + [CleanupRecord(MANIFEST_NAME, CleanupConflicts)], progress.conflicts))
  }

  function Cleanup(env: Surroundings, disk: Disk, profileReady: bool): (Disk, Outcome) {
    if !profileReady then (disk, Blocked)
    else
      match ReadManifest(env, disk)
      case Err(outcome) => (disk, outcome)
      case Ok(manifest) => Finish(TakeAll(env, disk, manifest.files))
  }

  class ProjectDirectory {
    var disk: Disk

    constructor (disk: Disk)
      ensures this.disk == disk
    {
      this.disk := disk;
    }

    method RemoveEmptyDirectories()
      modifies this
      ensures disk == RemoveDirectories(old(disk), DIRECTORIES)
    {
      for i := 0 to |DIRECTORIES|
        invariant disk == RemoveDirectories(old(disk), DIRECTORIES[..i])
      {
        var directory := DIRECTORIES[i];
        assert DIRECTORIES[..i + 1][..i] == DIRECTORIES[..i];
        if EmptyDirectory(disk, directory) { disk := disk - {directory}; }
      }
      assert DIRECTORIES[..|DIRECTORIES|] == DIRECTORIES;
    }

    // One listed file: it goes when every check lets it.
    method CleanFile(env: Surroundings, entry: ManifestEntry, file: Path) returns (decision: Decision)
      modifies this
      ensures decision == Decide(env, old(disk), entry, file)
      ensures disk == if decision == Removable then old(disk) - {file} else old(disk)
    {
      if !Exists(env, disk, file) { return Absent; }
      if !PhysicallyContained(disk, file) { return Escapes; }
      if env.tracked(Slashes(entry.path)) { return Tracked; }
      if env.sha256(disk[file].content) != entry.checksum { return Modified; }
      disk := disk - {file};
      return Removable;
    }

    // The loop over the listed files.
    method CleanFiles(env: Surroundings, files: seq<ManifestEntry>)
      returns (removed: seq<Text>, preserved: seq<CleanupRecord>, conflicts: seq<CleanupRecord>, thrown: Option<Text>)
      modifies this
      ensures thrown == TakeAll(env, old(disk), files).thrown && disk == TakeAll(env, old(disk), files).disk
      ensures thrown.None? ==> Progress(disk, removed, preserved, conflicts, None) == TakeAll(env, old(disk), files)
    {
      removed, preserved, conflicts := [], [], [];
      for i := 0 to |files|
        invariant Progress(disk, removed, preserved, conflicts, None) == TakeAll(env, old(disk), files[..i])
      {
        var entry := files[i];
        NextEntry(env, old(disk), files, i);
        var relativePath := Slashes(entry.path);
        var target := Target(env, relativePath);
        if target.None? {
          StaysThrown(env, old(disk), files, i + 1);
          return removed, preserved, conflicts, Some(relativePath);
        }
        var decision := CleanFile(env, entry, target.value);
        match decision {
          case Absent =>
          case Escapes =>
            var conflict := CleanupRecord(relativePath, LinkOrPathEscape);
            preserved := preserved + [conflict];
            conflicts := conflicts + [conflict];
          case Tracked => preserved := preserved + [CleanupRecord(relativePath, TrackedFile)];
          case Modified =>
            preserved := preserved + [CleanupRecord(relativePath, ModifiedFile)];
            conflicts := conflicts + [CleanupRecord(relativePath, ChecksumMismatch)];
          case Removable => removed := removed + [relativePath];
        }
      }
      assert files[..|files|] == files;
      thrown := None;
    }

    method CleanupLegacyKernelHydration(env: Surroundings, profileReady: bool) returns (outcome: Outcome)
      modifies this
      ensures (disk, outcome) == Cleanup(env, old(disk), profileReady)
    {
      if !profileReady { return Blocked; }
      var read := ReadManifest(env, disk);
      if read.Err? { return read.error; }
      var removed, preserved, conflicts, thrown := CleanFiles(env, read.value.files);
      if thrown.Some? { return UnsafeTarget(thrown.value); }
      if |conflicts| == 0 {
        disk := disk - {MANIFEST_PATH};
        removed := removed + [MANIFEST_NAME];
      } else {
        preserved := preserved + [CleanupRecord(MANIFEST_NAME, CleanupConflicts)];
      }
      RemoveEmptyDirectories();
      return Finished(removed, preserved, conflicts);
    }
  }

  lemma NextEntry(env: Surroundings, disk: Disk, entries: seq<ManifestEntry>, i: nat)
    requires i < |entries|
    ensures TakeAll(env, disk, entries[..i + 1]) == Take(env, TakeAll(env, disk, entries[..i]), entries[i])
  {
    assert entries[..i + 1][..i] == entries[..i];
  }

  lemma {:induction false} StaysThrown(env: Surroundings, disk: Disk, entries: seq<ManifestEntry>, n: nat)
    requires n <= |entries| && TakeAll(env, disk, entries[..n]).thrown.Some?
    ensures TakeAll(env, disk, entries) == TakeAll(env, disk, entries[..n])
    decreases |entries|
  {
    if n == |entries| {
      assert entries[..n] == entries;
    } else {
      var init := entries[..|entries| - 1];
      assert init[..n] == entries[..n];
      StaysThrown(env, disk, init, n);
    }
  }

  // ---- A run, told by the disk before it alone ----

  // What one entry comes to on a disk: its file, the decision and the conflict it would report.
  datatype Verdict = Verdict(path: Path, decision: Decision, record: CleanupRecord)

  ghost predicate Inside(env: Surroundings, entries: seq<ManifestEntry>) {
    forall i :: 0 <= i < |entries| ==> Target(env, Slashes(entries[i].path)).Some?
  }

  ghost function VerdictOf(env: Surroundings, disk: Disk, entry: ManifestEntry): Verdict
    requires Target(env, Slashes(entry.path)).Some?
  {
    var path := Target(env, Slashes(entry.path)).value;
    var decision := Decide(env, disk, entry, path);
    Verdict(path, decision,
            CleanupRecord(Slashes(entry.path), if decision == Escapes then LinkOrPathEscape else ChecksumMismatch))
  }

  ghost function Verdicts(env: Surroundings, disk: Disk, entries: seq<ManifestEntry>): seq<Verdict>
    requires Inside(env, entries)
  {
    seq(|entries|, i requires 0 <= i < |entries| => VerdictOf(env, disk, entries[i]))
  }

  predicate Conflicting(decision: Decision) {
    decision == Escapes || decision == Modified
  }

  // The files a run over the verdicts removes.
  ghost function Gone(verdicts: seq<Verdict>): set<Path> {
    set k | 0 <= k < |verdicts| && verdicts[k].decision == Removable :: verdicts[k].path
  }

  // The conflicts of the verdicts whose files are not away.
  ghost function ConflictsBut(verdicts: seq<Verdict>, away: seq<set<Path>>): seq<CleanupRecord>
    requires |away| == |verdicts|
  {
    if verdicts == [] then []
    else
      var last := |verdicts| - 1;
      var before := ConflictsBut(verdicts[..last], away[..last]);
      if verdicts[last].path !in away[last] && Conflicting(verdicts[last].decision) then before + [verdicts[last].record]
      else before
  }

  // Files gone before each verdict, in the run itself.
  ghost function GoneBefore(verdicts: seq<Verdict>): seq<set<Path>> {
    seq(|verdicts|, i requires 0 <= i < |verdicts| => Gone(verdicts[..i]))
  }

  // Plain files and directories: taking them away shows no other entry anything new.
  ghost predicate Harmless(disk: Disk, away: set<Path>) {
    [] !in disk && forall p :: p in away ==> p in disk && !disk[p].Link?
  }

  lemma LinksStay(disk: Disk, away: set<Path>, path: Path)
    requires Harmless(disk, away)
    ensures LinkAbove(disk - away, path) == LinkAbove(disk, path)
  {
    if LinkAbove(disk, path) {
      var k :| 0 <= k < |path| && path[..k] in disk && disk[path[..k]].Link?;
      assert path[..k] in disk - away;
    }
  }

  lemma DecideAfter(env: Surroundings, disk: Disk, away: set<Path>, entry: ManifestEntry, target: Path)
    requires Harmless(disk, away) && (target in away ==> !LinkAbove(disk, target))
    ensures Decide(env, disk - away, entry, target)
            == if target in away then Absent else Decide(env, disk, entry, target)
  {
    LinksStay(disk, away, target);
  }

  lemma RemovableIsContained(env: Surroundings, disk: Disk, entries: seq<ManifestEntry>)
    requires [] !in disk && Inside(env, entries)
    ensures Harmless(disk, Gone(Verdicts(env, disk, entries)))
    ensures forall p :: p in Gone(Verdicts(env, disk, entries)) ==> PhysicallyContained(disk, p)
  {
  }

  lemma TakeDecides(env: Surroundings, before: Progress, entry: ManifestEntry)
    requires before.thrown.None? && Target(env, Slashes(entry.path)).Some?
    ensures (var verdict, after := VerdictOf(env, before.disk, entry), Take(env, before, entry);
             && after.thrown.None?
             && after.disk == (if verdict.decision == Removable then before.disk - {verdict.path} else before.disk)
             && after.conflicts == if Conflicting(verdict.decision) then before.conflicts + [verdict.record] else before.conflicts)
  {
  }

  lemma GoneOneMore(verdicts: seq<Verdict>)
    requires verdicts != []
    ensures (var init, last := verdicts[..|verdicts| - 1], verdicts[|verdicts| - 1];
             Gone(verdicts) == Gone(init) + if last.decision == Removable then {last.path} else {})
  {
    var init := verdicts[..|verdicts| - 1];
    forall p | p in Gone(verdicts) && p != verdicts[|verdicts| - 1].path ensures p in Gone(init) {
      var k :| 0 <= k < |verdicts| && verdicts[k].decision == Removable && verdicts[k].path == p;
      assert init[k] == verdicts[k];
    }
    forall p | p in Gone(init) ensures p in Gone(verdicts) {
      var k :| 0 <= k < |init| && init[k].decision == Removable && init[k].path == p;
      assert init[k] == verdicts[k];
    }
    if verdicts[|verdicts| - 1].decision != Removable && verdicts[|verdicts| - 1].path in Gone(verdicts) {
      var k :| 0 <= k < |verdicts| && verdicts[k].decision == Removable && verdicts[k].path == verdicts[|verdicts| - 1].path;
      assert init[k] == verdicts[k];
    }
  }

  lemma AwayOneMore(disk: Disk, away: set<Path>, path: Path)
    ensures disk - away - {path} == disk - (away + {path})
  {
  }

  // One step of a run on a disk with some files away, judged on the disk with all of them.
  lemma TakeWithAway(env: Surroundings, disk: Disk, away: set<Path>, before: Progress, entry: ManifestEntry)
    requires before.thrown.None? && Target(env, Slashes(entry.path)).Some?
    requires Harmless(disk, away) && before.disk == disk - away
    requires (var path := VerdictOf(env, disk, entry).path; path in away ==> !LinkAbove(disk, path))
    ensures (var verdict, after := VerdictOf(env, disk, entry), Take(env, before, entry);
             && after.thrown.None?
             && after.disk == disk - (away + if verdict.decision == Removable then {verdict.path} else {})
             && after.conflicts == if verdict.path !in away && Conflicting(verdict.decision)
                                   then before.conflicts + [verdict.record] else before.conflicts)
  {
    var path := VerdictOf(env, disk, entry).path;
    DecideAfter(env, disk, away, entry, path);
    TakeDecides(env, before, entry);
    AwayOneMore(disk, away, path);
    if path in away { assert away + {path} == away; }
    assert away + {} == away;
  }

  lemma {:induction false} RunByFirstDisk(env: Surroundings, disk: Disk, entries: seq<ManifestEntry>)
    requires [] !in disk && Inside(env, entries)
    ensures (var verdicts, after := Verdicts(env, disk, entries), TakeAll(env, disk, entries);
             && after.thrown.None? && after.disk == disk - Gone(verdicts)
             && after.conflicts == ConflictsBut(verdicts, GoneBefore(verdicts)))
  {
    var verdicts := Verdicts(env, disk, entries);
    if entries == [] {
      assert disk - Gone(verdicts) == disk;
    } else {
      var n := |entries| - 1;
      var init := entries[..n];
      RunByFirstDisk(env, disk, init);
      RemovableIsContained(env, disk, init);
      assert Verdicts(env, disk, init) == verdicts[..n];
      TakeWithAway(env, disk, Gone(verdicts[..n]), TakeAll(env, disk, init), entries[n]);
      GoneOneMore(verdicts);
      GoneBeforePrefix(verdicts, n);
    }
  }

  lemma GoneBeforePrefix(verdicts: seq<Verdict>, n: nat)
    requires n < |verdicts|
    ensures GoneBefore(verdicts)[..n] == GoneBefore(verdicts[..n]) && GoneBefore(verdicts)[n] == Gone(verdicts[..n])
  {
    forall i | 0 <= i < n ensures verdicts[..n][..i] == verdicts[..i] {}
  }

  // ---- The directories ----

  ghost predicate ChildFirst(directories: seq<Path>) {
    forall i, j :: 0 <= i < j < |directories| ==> !(directories[i] < directories[j])
  }

  ghost function Emptied(disk: Disk, directories: seq<Path>): set<Path> {
    disk.Keys - RemoveDirectories(disk, directories).Keys
  }

  lemma {:induction false} OnlyDirectoriesGo(disk: Disk, directories: seq<Path>)
    ensures RemoveDirectories(disk, directories) == disk - Emptied(disk, directories)
    ensures forall p :: p in Emptied(disk, directories) ==> p in directories && p in disk && disk[p].Directory?
  {
    if directories != [] {
      var init := directories[..|directories| - 1];
      OnlyDirectoriesGo(disk, init);
      assert directories == init + [directories[|directories| - 1]];
    }
  }

  lemma {:induction false} NoneLeftEmpty(disk: Disk, directories: seq<Path>)
    requires ChildFirst(directories)
    ensures forall i :: 0 <= i < |directories| ==> !EmptyDirectory(RemoveDirectories(disk, directories), directories[i])
  {
    if directories != [] {
      var init, last := directories[..|directories| - 1], directories[|directories| - 1];
      NoneLeftEmpty(disk, init);
      var before, after := RemoveDirectories(disk, init), RemoveDirectories(disk, directories);
      forall i | 0 <= i < |directories| ensures !EmptyDirectory(after, directories[i]) {
        if i < |init| {
          assert init[i] == directories[i] && !(directories[i] < last);
          StillNotEmpty(before, last, directories[i]);
        }
      }
    }
  }

  lemma StillNotEmpty(disk: Disk, removed: Path, directory: Path)
    requires !EmptyDirectory(disk, directory) && !(directory < removed)
    ensures !EmptyDirectory(RemoveDirectory(disk, removed), directory)
  {
    if EmptyDirectory(disk, removed) {
      var after := disk - {removed};
      if LinkAbove(disk, directory) {
        var k :| 0 <= k < |directory| && directory[..k] in disk && disk[directory[..k]].Link?;
        assert directory[..k] in after;
      } else if directory in disk && disk[directory].Directory? {
        var p :| p in disk && directory < p;
        assert p in after;
      }
    }
  }

  lemma {:induction false} NothingEmptyNothingGoes(disk: Disk, directories: seq<Path>)
    requires forall d :: d in directories ==> !EmptyDirectory(disk, d)
    ensures RemoveDirectories(disk, directories) == disk
  {
    if directories != [] {
      var init := directories[..|directories| - 1];
      assert directories == init + [directories[|directories| - 1]];
      NothingEmptyNothingGoes(disk, init);
    }
  }

  lemma RemovingTwiceIsRemovingOnce(disk: Disk)
    ensures RemoveDirectories(RemoveDirectories(disk, DIRECTORIES), DIRECTORIES) == RemoveDirectories(disk, DIRECTORIES)
  {
    DirectoriesAreChildFirst();
    NoneLeftEmpty(disk, DIRECTORIES);
    NothingEmptyNothingGoes(RemoveDirectories(disk, DIRECTORIES), DIRECTORIES);
  }

  lemma DirectoriesAreChildFirst()
    ensures ChildFirst(DIRECTORIES)
  {
    forall i, j | 0 <= i < j < |DIRECTORIES| ensures !(DIRECTORIES[i] < DIRECTORIES[j]) {
      assert |DIRECTORIES[j]| <= |DIRECTORIES[i]|;
    }
  }

  // ---- The second run ----

  // An entry in conflict whose file a later entry then removes: both name one file,
  // with different checksums, and no entry before removed it.
  ghost predicate Overtaken(verdicts: seq<Verdict>) {
    exists i, j :: 0 <= i < j < |verdicts| && OvertakenAt(verdicts, i, j)
  }

  ghost predicate OvertakenAt(verdicts: seq<Verdict>, i: nat, j: nat)
    requires i < j < |verdicts|
  {
    && verdicts[i].path == verdicts[j].path
    && Conflicting(verdicts[i].decision) && verdicts[j].decision == Removable
    && forall k :: 0 <= k < i && verdicts[k].path == verdicts[i].path ==> verdicts[k].decision != Removable
  }

  // Reported before and not after, when later's files are away too.
  ghost predicate Dropped(verdict: Verdict, early: set<Path>, late: set<Path>) {
    Conflicting(verdict.decision) && verdict.path !in early && verdict.path in late
  }

  lemma LastAgrees(left: seq<CleanupRecord>, right: seq<CleanupRecord>, last: CleanupRecord)
    ensures left + [last] == right + [last] <==> left == right
    ensures |left| <= |right| ==> left != right + [last]
  {
    if left + [last] == right + [last] {
      assert (left + [last])[..|left|] == left && (right + [last])[..|right|] == right;
    }
  }

  // Taking more files away leaves no more conflicts, and the same ones exactly
  // when no conflicting entry names a file taken from one list and not the other.
  lemma {:induction false} FewerConflicts(verdicts: seq<Verdict>, early: seq<set<Path>>, late: seq<set<Path>>)
    requires |early| == |late| == |verdicts|
    requires forall i :: 0 <= i < |verdicts| ==> early[i] <= late[i]
    ensures |ConflictsBut(verdicts, late)| <= |ConflictsBut(verdicts, early)|
    ensures ConflictsBut(verdicts, late) == ConflictsBut(verdicts, early)
            <==> forall i :: 0 <= i < |verdicts| ==> !Dropped(verdicts[i], early[i], late[i])
  {
    if verdicts != [] {
      var n := |verdicts| - 1;
      var vs, es, ls := verdicts[..n], early[..n], late[..n];
      FewerConflicts(vs, es, ls);
      assert (forall i :: 0 <= i < n ==> !Dropped(vs[i], es[i], ls[i]))
             <==> forall i :: 0 <= i < n ==> !Dropped(verdicts[i], early[i], late[i]) by {
        forall i | 0 <= i < n ensures vs[i] == verdicts[i] && es[i] == early[i] && ls[i] == late[i] {}
      }
      LastAgrees(ConflictsBut(vs, ls), ConflictsBut(vs, es), verdicts[n].record);
    }
  }

  function Everywhere(away: set<Path>, n: nat): seq<set<Path>> {
    seq(n, i requires 0 <= i < n => away)
  }

  // The files a run over the verdicts would remove are away, and no link leads to those that are.
  ghost predicate Cleared(disk: Disk, verdicts: seq<Verdict>, away: set<Path>) {
    Harmless(disk, away) && Gone(verdicts) <= away
    && forall i :: 0 <= i < |verdicts| && verdicts[i].path in away ==> !LinkAbove(disk, verdicts[i].path)
  }

  lemma ClearedPrefix(disk: Disk, verdicts: seq<Verdict>, away: set<Path>)
    requires verdicts != [] && Cleared(disk, verdicts, away)
    ensures (var last := verdicts[|verdicts| - 1];
             && Cleared(disk, verdicts[..|verdicts| - 1], away)
             && (last.decision == Removable ==> last.path in away) && (last.path in away ==> !LinkAbove(disk, last.path)))
  {
    GoneOneMore(verdicts);
  }

  lemma RemovedAgain(env: Surroundings, disk: Disk, away: set<Path>, before: Progress, entry: ManifestEntry)
    requires before.thrown.None? && Target(env, Slashes(entry.path)).Some?
    requires Harmless(disk, away) && before.disk == disk - away
    requires (var verdict := VerdictOf(env, disk, entry);
              verdict.decision == Removable && verdict.path in away && !LinkAbove(disk, verdict.path))
    ensures (var after := Take(env, before, entry);
             after.thrown.None? && after.disk == disk - away && after.conflicts == before.conflicts)
  {
    TakeWithAway(env, disk, away, before, entry);
    assert away + {VerdictOf(env, disk, entry).path} == away;
  }

  lemma KeptAgain(env: Surroundings, disk: Disk, away: set<Path>, before: Progress, entry: ManifestEntry)
    requires before.thrown.None? && Target(env, Slashes(entry.path)).Some?
    requires Harmless(disk, away) && before.disk == disk - away
    requires (var verdict := VerdictOf(env, disk, entry);
              verdict.decision != Removable && (verdict.path in away ==> !LinkAbove(disk, verdict.path)))
    ensures (var verdict, after := VerdictOf(env, disk, entry), Take(env, before, entry);
             && after.thrown.None? && after.disk == disk - away
             && after.conflicts == if verdict.path !in away && Conflicting(verdict.decision)
                                   then before.conflicts + [verdict.record] else before.conflicts)
  {
    TakeWithAway(env, disk, away, before, entry);
    assert away + {} == away;
  }

  lemma ConflictsButLast(verdicts: seq<Verdict>, away: set<Path>)
    requires verdicts != []
    ensures (var n := |verdicts| - 1;
             var before := ConflictsBut(verdicts[..n], Everywhere(away, n));
             ConflictsBut(verdicts, Everywhere(away, |verdicts|))
             == if verdicts[n].path !in away && Conflicting(verdicts[n].decision) then before + [verdicts[n].record] else before)
  {
    assert Everywhere(away, |verdicts|)[..|verdicts| - 1] == Everywhere(away, |verdicts| - 1);
  }

  // With every removable file gone, a run removes nothing and finds the conflicts
  // of the entries whose files are still there.
  lemma {:induction false} RunAgain(env: Surroundings, disk: Disk, entries: seq<ManifestEntry>, away: set<Path>)
    requires Inside(env, entries) && Cleared(disk, Verdicts(env, disk, entries), away)
    ensures (var after := TakeAll(env, disk - away, entries);
             && after.thrown.None? && after.disk == disk - away
             && after.conflicts == ConflictsBut(Verdicts(env, disk, entries), Everywhere(away, |entries|)))
  {
    if entries != [] {
      var n, verdicts := |entries| - 1, Verdicts(env, disk, entries);
      var init, last := entries[..n], entries[n];
      assert Verdicts(env, disk, init) == verdicts[..n] && verdicts[n] == VerdictOf(env, disk, last);
      ClearedPrefix(disk, verdicts, away);
      RunAgain(env, disk, init, away);
      ConflictsButLast(verdicts, away);
      if verdicts[n].decision == Removable {
        RemovedAgain(env, disk, away, TakeAll(env, disk - away, init), last);
      } else {
        KeptAgain(env, disk, away, TakeAll(env, disk - away, init), last);
      }
    }
  }

  // What the caller can see of the manifest before the call: every entry lies in the
  // root, and none names the manifest.
  ghost predicate Ordinary(env: Surroundings, entries: seq<ManifestEntry>) {
    forall i :: 0 <= i < |entries| ==>
      var target := Target(env, Slashes(entries[i].path));
      target.Some? && target.value != MANIFEST_PATH
  }

  lemma GoneGrows(verdicts: seq<Verdict>, n: nat)
    requires n <= |verdicts|
    ensures Gone(verdicts[..n]) <= Gone(verdicts)
  {
    forall p | p in Gone(verdicts[..n]) ensures p in Gone(verdicts) {
      var k :| 0 <= k < n && verdicts[..n][k].decision == Removable && verdicts[..n][k].path == p;
      assert verdicts[k] == verdicts[..n][k];
    }
  }

  lemma DroppedIsOvertaken(verdicts: seq<Verdict>, i: nat)
    requires i < |verdicts| && Dropped(verdicts[i], Gone(verdicts[..i]), Gone(verdicts))
    ensures Overtaken(verdicts)
  {
    var j :| 0 <= j < |verdicts| && verdicts[j].decision == Removable && verdicts[j].path == verdicts[i].path;
    forall k | 0 <= k < i && verdicts[k].path == verdicts[i].path ensures verdicts[k].decision != Removable {
      assert verdicts[..i][k] == verdicts[k];
    }
    assert OvertakenAt(verdicts, i, j);
  }

  lemma OvertakenIsDropped(verdicts: seq<Verdict>) returns (i: nat)
    requires Overtaken(verdicts)
    ensures i < |verdicts| && Dropped(verdicts[i], Gone(verdicts[..i]), Gone(verdicts))
  {
    var first, j :| 0 <= first < j < |verdicts| && OvertakenAt(verdicts, first, j);
    i := first;
    assert verdicts[j].path in Gone(verdicts);
    assert forall k :: 0 <= k < i ==> verdicts[..i][k] == verdicts[k];
  }

  // An entry in conflict over something other than a removed file that is gone afterwards.
  ghost predicate ConflictGoes(verdicts: seq<Verdict>, also: set<Path>) {
    exists i :: 0 <= i < |verdicts| && Conflicting(verdicts[i].decision) && verdicts[i].path in also
  }

  // Conflicts judged with more away than the removed files differ exactly for an
  // overtaken entry and for one whose path is among the others.
  lemma ConflictsStayIff(verdicts: seq<Verdict>, also: set<Path>)
    requires Gone(verdicts) !! also
    ensures ConflictsBut(verdicts, Everywhere(Gone(verdicts) + also, |verdicts|)) == ConflictsBut(verdicts, GoneBefore(verdicts))
            <==> !Overtaken(verdicts) && !ConflictGoes(verdicts, also)
    ensures Overtaken(verdicts) || ConflictGoes(verdicts, also) ==> ConflictsBut(verdicts, GoneBefore(verdicts)) != []
  {
    var away := Gone(verdicts) + also;
    var early, late := GoneBefore(verdicts), Everywhere(away, |verdicts|);
    forall i | 0 <= i < |verdicts| ensures early[i] <= late[i] && early[i] <= Gone(verdicts) {
      GoneGrows(verdicts, i);
    }
    FewerConflicts(verdicts, early, late);
    if Overtaken(verdicts) {
      var i := OvertakenIsDropped(verdicts);
      assert Dropped(verdicts[i], early[i], late[i]);
    } else if ConflictGoes(verdicts, also) {
      var i :| 0 <= i < |verdicts| && Conflicting(verdicts[i].decision) && verdicts[i].path in also;
      assert Dropped(verdicts[i], early[i], late[i]);
    } else {
      forall i | 0 <= i < |verdicts| ensures !Dropped(verdicts[i], early[i], late[i]) {
        if Dropped(verdicts[i], Gone(verdicts[..i]), Gone(verdicts)) { DroppedIsOvertaken(verdicts, i); }
      }
    }
  }

  // A finished run keeps a conflict manifest where it was.
  lemma ManifestStays(env: Surroundings, disk: Disk, away: set<Path>)
    requires Harmless(disk, away) && MANIFEST_PATH !in away
    ensures ReadManifest(env, disk - away) == ReadManifest(env, disk)
  {
    LinksStay(disk, away, MANIFEST_PATH);
  }

  lemma ManifestGone(env: Surroundings, disk: Disk, away: set<Path>)
    requires Harmless(disk, away) && MANIFEST_PATH in away && PhysicallyContained(disk, MANIFEST_PATH)
    ensures ReadManifest(env, disk - away) == Err(NotHydrated)
  {
    LinksStay(disk, away, MANIFEST_PATH);
  }

  lemma AwayTwice(disk: Disk, first: set<Path>, second: set<Path>)
    ensures disk - first - second == disk - (first + second)
  {
  }

  // What a finished run took away: the removable files, the manifest if nothing
  // conflicted, and the directories that emptied.
  ghost function Away(disk: Disk, gone: set<Path>, manifestToo: bool): set<Path> {
    var files := gone + if manifestToo then {MANIFEST_PATH} else {};
    files + Emptied(disk - files, DIRECTORIES)
  }

  lemma RunTakesAway(env: Surroundings, disk: Disk, manifest: Manifest)
    requires [] !in disk && ReadManifest(env, disk) == Ok(manifest) && Inside(env, manifest.files)
    ensures (var gone, done := Gone(Verdicts(env, disk, manifest.files)), TakeAll(env, disk, manifest.files).conflicts == [];
             && Cleanup(env, disk, true).0 == disk - Away(disk, gone, done)
             && Harmless(disk, Away(disk, gone, done)) && gone <= Away(disk, gone, done)
             && (done ==> MANIFEST_PATH in Away(disk, gone, done))
             && forall p :: p in Away(disk, gone, done) ==>
                  p in gone || (p in DIRECTORIES && disk[p].Directory?) || (done && p == MANIFEST_PATH))
  {
    var gone, done := Gone(Verdicts(env, disk, manifest.files)), TakeAll(env, disk, manifest.files).conflicts == [];
    RunByFirstDisk(env, disk, manifest.files);
    RemovableIsContained(env, disk, manifest.files);
    var files := gone + if done then {MANIFEST_PATH} else {};
    AwayTwice(disk, gone, {MANIFEST_PATH});
    assert !done ==> files == gone;
    OnlyDirectoriesGo(disk - files, DIRECTORIES);
    AwayTwice(disk, files, Emptied(disk - files, DIRECTORIES));
  }

  ghost predicate SameAgain(env: Surroundings, disk: Disk) {
    var (disk1, outcome1) := Cleanup(env, disk, true);
    var (disk2, outcome2) := Cleanup(env, disk1, true);
    disk2 == disk1
    && (outcome2 == NotHydrated || (outcome1.Finished? && outcome2.Finished? && outcome2.conflicts == outcome1.conflicts))
  }

  // The directories a run with conflicts empties and removes.
  ghost function EmptiedBy(disk: Disk, verdicts: seq<Verdict>): set<Path> {
    Emptied(disk - Gone(verdicts), DIRECTORIES)
  }

  // An entry names one of them: a conflict, because it is no file, that is gone afterwards.
  ghost predicate NamesEmptied(disk: Disk, verdicts: seq<Verdict>) {
    exists i :: 0 <= i < |verdicts| && verdicts[i].path in EmptiedBy(disk, verdicts)
  }

  lemma {:induction false} EmptiedAreReached(disk: Disk, directories: seq<Path>)
    requires [] !in disk
    ensures forall p :: p in Emptied(disk, directories) ==> !LinkAbove(disk, p)
  {
    if directories != [] {
      var init, last := directories[..|directories| - 1], directories[|directories| - 1];
      EmptiedAreReached(disk, init);
      OnlyDirectoriesGo(disk, init);
      LinksStay(disk, Emptied(disk, init), last);
    }
  }

  lemma EmptiedIsConflicting(env: Surroundings, disk: Disk, entries: seq<ManifestEntry>)
    requires [] !in disk && Inside(env, entries)
    ensures (var verdicts := Verdicts(env, disk, entries);
             && Gone(verdicts) !! EmptiedBy(disk, verdicts)
             && (forall p :: p in EmptiedBy(disk, verdicts) ==> p in disk && disk[p].Directory? && !LinkAbove(disk, p))
             && (ConflictGoes(verdicts, EmptiedBy(disk, verdicts)) <==> NamesEmptied(disk, verdicts)))
  {
    var verdicts := Verdicts(env, disk, entries);
    RemovableIsContained(env, disk, entries);
    OnlyDirectoriesGo(disk - Gone(verdicts), DIRECTORIES);
    EmptiedAreReached(disk - Gone(verdicts), DIRECTORIES);
    forall p | p in EmptiedBy(disk, verdicts) ensures !LinkAbove(disk, p) {
      LinksStay(disk, Gone(verdicts), p);
    }
    forall i | 0 <= i < |verdicts| && verdicts[i].path in EmptiedBy(disk, verdicts) ensures Conflicting(verdicts[i].decision) {
      assert verdicts[i] == VerdictOf(env, disk, entries[i]);
    }
  }

  lemma ManifestIsNoDirectory()
    ensures MANIFEST_PATH !in DIRECTORIES
  {
    forall d | d in DIRECTORIES ensures d != MANIFEST_PATH {
      assert |d| == 2 ==> d[0] == Ascii(".agents");
      assert MANIFEST_PATH[0] == Ascii(".moon-relay");
      assert |Ascii(".agents")| != |Ascii(".moon-relay")|;
    }
  }

  // A second run changes nothing and reports the same conflicts, or nothing left to do,
  // exactly when no conflicting entry was overtaken in the first and none names a
  // directory the first empties.
  lemma SecondRunChangesNothingIff(env: Surroundings, disk: Disk, manifest: Manifest)
    requires [] !in disk && ReadManifest(env, disk) == Ok(manifest) && Ordinary(env, manifest.files)
    ensures (var verdicts := Verdicts(env, disk, manifest.files);
             SameAgain(env, disk) <==> !Overtaken(verdicts) && !NamesEmptied(disk, verdicts))
  {
    var entries := manifest.files;
    var verdicts, first := Verdicts(env, disk, entries), TakeAll(env, disk, entries);
    RunByFirstDisk(env, disk, entries);
    EmptiedIsConflicting(env, disk, entries);
    ConflictsStayIff(verdicts, EmptiedBy(disk, verdicts));
    if first.conflicts == [] {
      CleanedIsSameAgain(env, disk, manifest);
    } else {
      ConflictsRunAgain(env, disk, manifest);
    }
  }

  lemma CleanedIsSameAgain(env: Surroundings, disk: Disk, manifest: Manifest)
    requires [] !in disk && ReadManifest(env, disk) == Ok(manifest) && Ordinary(env, manifest.files)
    requires TakeAll(env, disk, manifest.files).conflicts == []
    ensures SameAgain(env, disk)
  {
    RunByFirstDisk(env, disk, manifest.files);
    RunTakesAway(env, disk, manifest);
    ManifestGone(env, disk, Away(disk, Gone(Verdicts(env, disk, manifest.files)), true));
  }

  lemma ConflictsRunAgain(env: Surroundings, disk: Disk, manifest: Manifest)
    requires [] !in disk && ReadManifest(env, disk) == Ok(manifest) && Ordinary(env, manifest.files)
    requires TakeAll(env, disk, manifest.files).conflicts != []
    ensures (var verdicts := Verdicts(env, disk, manifest.files);
             SameAgain(env, disk) <==>
             ConflictsBut(verdicts, Everywhere(Gone(verdicts) + EmptiedBy(disk, verdicts), |verdicts|))
             == TakeAll(env, disk, manifest.files).conflicts)
  {
    var entries := manifest.files;
    var verdicts, first := Verdicts(env, disk, entries), TakeAll(env, disk, entries);
    var away := Away(disk, Gone(verdicts), false);
    RunByFirstDisk(env, disk, entries);
    RunTakesAway(env, disk, manifest);
    RemovableIsContained(env, disk, entries);
    EmptiedIsConflicting(env, disk, entries);
    ManifestIsNoDirectory();
    assert Gone(verdicts) + {} == Gone(verdicts);
    assert away == Gone(verdicts) + EmptiedBy(disk, verdicts);
    OnlyDirectoriesGo(disk - Gone(verdicts), DIRECTORIES);
    assert MANIFEST_PATH !in away;
    ManifestStays(env, disk, away);
    RunAgain(env, disk, entries, away);
    RemovingTwiceIsRemovingOnce(first.disk);
  }

  lemma OneName(env: Surroundings, name: Text)
    requires Dotless(env.root) && |name| == 1 && name[0] != SLASH && name[0] != DOT && name[0] != BACKSLASH
    ensures Slashes(name) == name && Target(env, name) == Some([name])
  {
    ComponentAfterSlash([], name);
    assert [] + name == name && Components(name) == [name];
    ResolveKeepsPlain(env.root + [name], false);
    assert (env.root + [name])[|env.root|..] == [name];
    assert !StartsWith(name, [SLASH]);
  }

  // One file listed twice, first with a wrong checksum and then with its own: the
  // first run reports the conflict and removes the file, the second finds neither.
  lemma ListedTwiceDiffers(env: Surroundings, disk: Disk, manifest: Manifest, name: Text, wrong: Text)
    requires [] !in disk && Dotless(env.root) && ReadManifest(env, disk) == Ok(manifest)
    requires |name| == 1 && name[0] != SLASH && name[0] != DOT && name[0] != BACKSLASH
    requires [name] in disk && disk[[name]].File? && !LinkAbove(disk, [name]) && !env.tracked(name)
    requires wrong != env.sha256(disk[[name]].content)
    requires manifest.files == [ManifestEntry(name, wrong), ManifestEntry(name, env.sha256(disk[[name]].content))]
    ensures Ordinary(env, manifest.files) && !SameAgain(env, disk)
  {
    var entries := manifest.files;
    OneName(env, name);
    assert [name] != MANIFEST_PATH by { assert |MANIFEST_PATH| == 2; }
    assert entries[0].path == name && entries[1].path == name;
    var verdicts := Verdicts(env, disk, entries);
    assert verdicts[0] == VerdictOf(env, disk, entries[0]) && verdicts[1] == VerdictOf(env, disk, entries[1]);
    assert OvertakenAt(verdicts, 0, 1);
    SecondRunChangesNothingIff(env, disk, manifest);
  }

  // An empty legacy directory listed as a file: a conflict first, removed with the
  // directories, and no conflict any more in the second run.
  lemma ListedDirectoryDiffers(env: Surroundings, disk: Disk, manifest: Manifest, entry: ManifestEntry, directory: Path)
    requires [] !in disk && ReadManifest(env, disk) == Ok(manifest) && manifest.files == [entry]
    requires Target(env, Slashes(entry.path)) == Some(directory)
    requires directory in DIRECTORIES && EmptyDirectory(disk, directory)
    ensures Ordinary(env, manifest.files) && !SameAgain(env, disk)
  {
    ManifestIsNoDirectory();
    var verdicts := Verdicts(env, disk, manifest.files);
    assert verdicts == [VerdictOf(env, disk, entry)];
    assert Gone(verdicts) == {};
    assert disk - Gone(verdicts) == disk;
    DirectoriesAreChildFirst();
    NoneLeftEmpty(disk, DIRECTORIES);
    OnlyDirectoriesGo(disk, DIRECTORIES);
    EmptyIsEmptied(disk, directory);
    assert verdicts[0].path in EmptiedBy(disk, verdicts);
    SecondRunChangesNothingIff(env, disk, manifest);
  }

  lemma EmptyIsEmptied(disk: Disk, directory: Path)
    requires [] !in disk && directory in DIRECTORIES && EmptyDirectory(disk, directory)
    ensures directory in Emptied(disk, DIRECTORIES)
  {
    var away := Emptied(disk, DIRECTORIES);
    OnlyDirectoriesGo(disk, DIRECTORIES);
    DirectoriesAreChildFirst();
    NoneLeftEmpty(disk, DIRECTORIES);
    var i :| 0 <= i < |DIRECTORIES| && DIRECTORIES[i] == directory;
    if directory !in away { StaysEmpty(disk, away, directory); }
  }

  lemma StaysEmpty(disk: Disk, away: set<Path>, directory: Path)
    requires Harmless(disk, away) && EmptyDirectory(disk, directory) && directory !in away
    ensures EmptyDirectory(disk - away, directory)
  {
    LinksStay(disk, away, directory);
  }

  // A run that stops before the list changes nothing, so it stops again.
  lemma RefusalRepeats(env: Surroundings, disk: Disk, profileReady: bool)
    requires profileReady ==> ReadManifest(env, disk).Err?
    ensures Cleanup(env, Cleanup(env, disk, profileReady).0, profileReady) == (disk, Cleanup(env, disk, profileReady).1)
  {
  }

  // ---- Only what was listed goes ----

  // Whatever a run does, also one that stops at an unsafe entry: what is gone is
  // the manifest, an empty legacy directory, or an untracked file listed with its
  // own checksum; everything else is as before.
  lemma OnlyListedFilesGo(env: Surroundings, disk: Disk, profileReady: bool, path: Path)
    requires [] !in disk && path in disk
    ensures (var after := Cleanup(env, disk, profileReady).0;
             if path in after then after[path] == disk[path]
             else || path == MANIFEST_PATH
                  || (path in DIRECTORIES && disk[path].Directory?)
                  || (ReadManifest(env, disk).Ok? && ListedAndUnchanged(env, disk, ReadManifest(env, disk).value.files, path)))
  {
    var read := ReadManifest(env, disk);
    if profileReady && read.Ok? {
      var entries := read.value.files;
      var after := TakeAll(env, disk, entries);
      TakenAreListed(env, disk, entries, path);
      OnlyDirectoriesGo(after.disk, DIRECTORIES);
      OnlyDirectoriesGo(after.disk - {MANIFEST_PATH}, DIRECTORIES);
    }
  }

  ghost predicate ListedAndUnchanged(env: Surroundings, disk: Disk, entries: seq<ManifestEntry>, path: Path) {
    path in disk && disk[path].File?
    && exists e :: e in entries && Target(env, Slashes(e.path)) == Some(path)
                   && !env.tracked(Slashes(e.path)) && env.sha256(disk[path].content) == e.checksum
  }

  lemma {:induction false} TakenAreListed(env: Surroundings, disk: Disk, entries: seq<ManifestEntry>, path: Path)
    requires path in disk
    ensures (var after := TakeAll(env, disk, entries).disk;
             && after.Keys <= disk.Keys
             && if path in after then after[path] == disk[path] else ListedAndUnchanged(env, disk, entries, path))
  {
    if entries != [] {
      var init, entry := entries[..|entries| - 1], entries[|entries| - 1];
      assert entries == init + [entry];
      TakenAreListed(env, disk, init, path);
      var before := TakeAll(env, disk, init);
      TakeRemovesListed(env, before, entry, path);
      if path !in before.disk {
        ListedInLonger(env, disk, init, entry, path);
      } else if path !in Take(env, before, entry).disk {
        assert entry in entries;
      }
    }
  }

  lemma TakeRemovesListed(env: Surroundings, before: Progress, entry: ManifestEntry, path: Path)
    ensures (var after := Take(env, before, entry).disk;
             && after.Keys <= before.disk.Keys
             && (path in before.disk ==>
                   if path in after then after[path] == before.disk[path]
                   else Target(env, Slashes(entry.path)) == Some(path) && Decide(env, before.disk, entry, path) == Removable))
  {
  }

  lemma ListedInLonger(env: Surroundings, disk: Disk, init: seq<ManifestEntry>, entry: ManifestEntry, path: Path)
    requires ListedAndUnchanged(env, disk, init, path)
    ensures ListedAndUnchanged(env, disk, init + [entry], path)
  {
    var e :| e in init && Target(env, Slashes(e.path)) == Some(path)
             && !env.tracked(Slashes(e.path)) && env.sha256(disk[path].content) == e.checksum;
    assert e in init + [entry];
  }

  // The manifest goes exactly when nothing conflicts.
  lemma ManifestGoesIff(env: Surroundings, disk: Disk, manifest: Manifest)
    requires [] !in disk && ReadManifest(env, disk) == Ok(manifest) && Ordinary(env, manifest.files)
    ensures (var (after, outcome) := Cleanup(env, disk, true);
             outcome.Finished? && (MANIFEST_PATH !in after <==> outcome.conflicts == []))
  {
    RunByFirstDisk(env, disk, manifest.files);
    RunTakesAway(env, disk, manifest);
    ManifestIsNoDirectory();
  }

  // ---- The report tells what was found ----

  // Why an existing file was kept, judged on the disk before the call.
  ghost predicate Explains(env: Surroundings, disk: Disk, entry: ManifestEntry, path: Path, reason: Reason) {
    match reason
    case LinkOrPathEscape => Exists(env, disk, path) && !PhysicallyContained(disk, path)
    case TrackedFile => PhysicallyContained(disk, path) && env.tracked(Slashes(entry.path))
    case ModifiedFile =>
      PhysicallyContained(disk, path) && !env.tracked(Slashes(entry.path))
      && env.sha256(disk[path].content) != entry.checksum
    case _ => false
  }

  ghost predicate KeptFor(env: Surroundings, disk: Disk, entry: ManifestEntry, record: CleanupRecord) {
    var target := Target(env, Slashes(entry.path));
    record.path == Slashes(entry.path) && target.Some? && Explains(env, disk, entry, target.value, record.reason)
  }

  ghost predicate Told(env: Surroundings, disk: Disk, entries: seq<ManifestEntry>, preserved: seq<CleanupRecord>) {
    forall record :: record in preserved ==> exists e :: e in entries && KeptFor(env, disk, e, record)
  }

  // The entry's file is absent from the start, taken by the run, or kept and reported.
  ghost predicate Accounted(env: Surroundings, disk: Disk, gone: set<Path>, entry: ManifestEntry, preserved: seq<CleanupRecord>)
    requires Target(env, Slashes(entry.path)).Some?
  {
    var path := Target(env, Slashes(entry.path)).value;
    !Exists(env, disk, path) || path in gone
    || exists record :: record in preserved && KeptFor(env, disk, entry, record)
  }

  lemma TakeReports(env: Surroundings, disk: Disk, away: set<Path>, before: Progress, entry: ManifestEntry)
    requires before.thrown.None? && Target(env, Slashes(entry.path)).Some?
    requires Harmless(disk, away) && before.disk == disk - away
    requires (var path := VerdictOf(env, disk, entry).path; path in away ==> !LinkAbove(disk, path))
    ensures (var verdict, after := VerdictOf(env, disk, entry), Take(env, before, entry);
             if verdict.path in away || verdict.decision == Absent || verdict.decision == Removable then
               after.preserved == before.preserved
             else exists record :: after.preserved == before.preserved + [record] && KeptFor(env, disk, entry, record))
  {
    var verdict := VerdictOf(env, disk, entry);
    DecideAfter(env, disk, away, entry, verdict.path);
    var reason := match verdict.decision
      case Escapes => LinkOrPathEscape
      case Tracked => TrackedFile
      case _ => ModifiedFile;
    var record := CleanupRecord(Slashes(entry.path), reason);
    if verdict.path !in away && verdict.decision != Absent && verdict.decision != Removable {
      assert Take(env, before, entry).preserved == before.preserved + [record];
      assert KeptFor(env, disk, entry, record);
    }
  }

  // Every reason reported is a true one, and every listed file that exists is either
  // gone after the loop or reported as kept.
  lemma {:induction false} ReportIsTrue(env: Surroundings, disk: Disk, entries: seq<ManifestEntry>)
    requires [] !in disk && Inside(env, entries)
    ensures (var preserved := TakeAll(env, disk, entries).preserved;
             && Told(env, disk, entries, preserved)
             && forall e :: e in entries ==> Accounted(env, disk, Gone(Verdicts(env, disk, entries)), e, preserved))
  {
    if entries != [] {
      var n, verdicts := |entries| - 1, Verdicts(env, disk, entries);
      var init, entry := entries[..n], entries[n];
      assert entries == init + [entry] && Verdicts(env, disk, init) == verdicts[..n];
      ReportIsTrue(env, disk, init);
      RunByFirstDisk(env, disk, init);
      RemovableIsContained(env, disk, init);
      TakeReports(env, disk, Gone(verdicts[..n]), TakeAll(env, disk, init), entry);
      GoneOneMore(verdicts);
      assert verdicts[n] == VerdictOf(env, disk, entry);
      var before, after := TakeAll(env, disk, init).preserved, TakeAll(env, disk, entries).preserved;
      ToldLonger(env, disk, init, entry, before, after);
      forall e | e in entries ensures Accounted(env, disk, Gone(verdicts), e, after) {
        if e in init { AccountedLonger(env, disk, Gone(verdicts[..n]), Gone(verdicts), e, before, after); }
      }
    }
  }

  lemma ToldLonger(env: Surroundings, disk: Disk, init: seq<ManifestEntry>, entry: ManifestEntry,
                   before: seq<CleanupRecord>, after: seq<CleanupRecord>)
    requires Told(env, disk, init, before)
    requires after == before || exists record :: after == before + [record] && KeptFor(env, disk, entry, record)
    ensures Told(env, disk, init + [entry], after)
  {
    forall record | record in after ensures exists e :: e in init + [entry] && KeptFor(env, disk, e, record) {
      if record in before {
        var e :| e in init && KeptFor(env, disk, e, record);
        assert e in init + [entry];
      } else {
        assert entry in init + [entry];
      }
    }
  }

  lemma AccountedLonger(env: Surroundings, disk: Disk, fewer: set<Path>, more: set<Path>, e: ManifestEntry,
                        before: seq<CleanupRecord>, after: seq<CleanupRecord>)
    requires Target(env, Slashes(e.path)).Some? && Accounted(env, disk, fewer, e, before)
    requires fewer <= more && before <= after
    ensures Accounted(env, disk, more, e, after)
  {
    if exists record :: record in before && KeptFor(env, disk, e, record) {
      var record :| record in before && KeptFor(env, disk, e, record);
      assert record in after;
    }
  }
}
