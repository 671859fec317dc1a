/** The closure of runtime dependencies installed under a source root. */
module RuntimeDependencies {
  import opened Prelude
  import opened JsText
  import opened Sorting
  import opened PathComponents
  import OrderedMap

  // An absolute path: its components from the file-system root.
  type Path = seq<Text>

  type Name = Text

  const NODE_MODULES: Text := [0x6E, 0x6F, 0x64, 0x65, 0x5F, 0x6D, 0x6F, 0x64, 0x75, 0x6C, 0x65, 0x73]

  // The keys of a manifest's tables in their own order; whether a version is a string.
  datatype Manifest = Manifest(dependencies: OrderedMap.Entries<Name, bool>, optionalDependencies: seq<Name>)

  // What the resolver can see: the real path of every spelling of a package
  // directory that holds a package.json, and that file, if it parses.
  datatype FileSystem = FileSystem(
    root: Path,
    realRoot: Path,
    realpath: Path -> Option<Path>,
    manifests: map<Path, Option<Manifest>>,
    rootManifest: Option<Manifest>)
  {
    // The root is resolved, and package directories are finitely many, however many
    // spellings they have.
    ghost predicate Valid() {
      Dotless(root) && forall p :: realpath(p).Some? ==> realpath(p).value in manifests
    }

    function ManifestAt(dir: Path): Option<Manifest> {
      match realpath(dir)
      case None => None
      case Some(target) => if target in manifests then manifests[target] else None
    }
  }

  datatype Failure =
    | Unreadable(dir: Path)
    | NotDeclared(name: Name)
    | NotInstalled(name: Name)
    | Escapes(name: Name, target: Path)
    | NotUnderNodeModules(name: Name, dir: Path)

  datatype Entry = Entry(name: Name, sourcePath: Path, relativePath: Path)

  datatype Item = Item(name: Name, parentDirectory: Path, optional: bool)

  predicate IsWithin(root: Path, target: Path) {
    root <= target
  }

  // path.dirname(path.join(cursor, 'node_modules', name, 'package.json'))
  function Candidate(cursor: Path, name: Name): Path {
    Resolve(cursor + [NODE_MODULES] + Components(name), false)
  }

  // The package an ancestor of the directory offers, the nearest ancestor first.
  function Nearest(fs: FileSystem, start: Path, name: Name): Option<Path>
    decreases |start|
  {
    if !IsWithin(fs.root, start) then None
    else if fs.realpath(Candidate(start, name)).Some? then Some(Candidate(start, name))
    else if start == fs.root then None
    else Nearest(fs, start[..|start| - 1], name)
  }

  // Nearest by its own statement: the longest prefix inside the root that offers it.
  lemma {:induction false} NearestIsLongest(fs: FileSystem, start: Path, name: Name)
    requires IsWithin(fs.root, start)
    ensures match Nearest(fs, start, name)
            case None => forall k :: |fs.root| <= k <= |start| ==> fs.realpath(Candidate(start[..k], name)).None?
            case Some(dir) =>
              exists k :: && |fs.root| <= k <= |start| && dir == Candidate(start[..k], name) && fs.realpath(dir).Some?
                          && forall j :: k < j <= |start| ==> fs.realpath(Candidate(start[..j], name)).None?
    decreases |start|
  {
    assert start[..|start|] == start;
    if fs.realpath(Candidate(start, name)).Some? {
    } else if start == fs.root {
    } else {
      var parent := start[..|start| - 1];
      NearestIsLongest(fs, parent, name);
      forall k | |fs.root| <= k <= |parent| ensures parent[..k] == start[..k] {}
      if Nearest(fs, parent, name).Some? {
        var dir := Nearest(fs, parent, name).value;
        var k :| |fs.root| <= k <= |parent| && dir == Candidate(parent[..k], name) && fs.realpath(dir).Some?
                 && forall j :: k < j <= |parent| ==> fs.realpath(Candidate(parent[..j], name)).None?;
        assert dir == Candidate(start[..k], name);
        forall j | k < j <= |start| ensures fs.realpath(Candidate(start[..j], name)).None? {
          if j < |start| { assert parent[..j] == start[..j]; }
        }
      } else {
        forall k | |fs.root| <= k <= |start| ensures fs.realpath(Candidate(start[..k], name)).None? {
          if k < |start| { assert parent[..k] == start[..k]; }
        }
      }
    }
  }

  function Lookup(fs: FileSystem, item: Item): Result<Option<Path>, Failure> {
    match Nearest(fs, item.parentDirectory, item.name)
    case Some(dir) =>
      var target := if fs.realpath(dir).Some? then fs.realpath(dir).value else dir;
      if IsWithin(fs.realRoot, target) then Ok(Some(dir)) else Err(Escapes(item.name, target))
    case None => if item.optional then Ok(None) else Err(NotInstalled(item.name))
  }

  method ResolveDependencyPackage(fs: FileSystem, item: Item) returns (r: Result<Option<Path>, Failure>)
    ensures r == Lookup(fs, item)
    ensures r.Ok? && r.value.Some? ==> fs.realpath(r.value.value).Some?
  {
    var cursor := item.parentDirectory;
    while IsWithin(fs.root, cursor)
      invariant Nearest(fs, cursor, item.name) == Nearest(fs, item.parentDirectory, item.name)
      decreases |cursor|
    {
      var packageDirectory := Candidate(cursor, item.name);
      var target := fs.realpath(packageDirectory);
      if target.Some? {
        if !IsWithin(fs.realRoot, target.value) { return Err(Escapes(item.name, target.value)); }
        return Ok(Some(packageDirectory));
      }
      if cursor == fs.root { break; }
      cursor := cursor[..|cursor| - 1];
    }
    if item.optional { return Ok(None); }
    return Err(NotInstalled(item.name));
  }

  // ---- What the closure must be ----

  predicate Depends(m: Manifest, name: Name, optional: bool) {
    if optional then name in m.optionalDependencies else name in OrderedMap.Keys(m.dependencies)
  }

  predicate Lists(fs: FileSystem, dir: Path, name: Name, optional: bool) {
    fs.ManifestAt(dir).Some? && Depends(fs.ManifestAt(dir).value, name, optional)
  }

  // One step: the package found for a name the manifest at the directory lists.
  ghost predicate Step(fs: FileSystem, dir: Path, next: Path) {
    exists name, optional ::
      Lists(fs, dir, name, optional) && Nearest(fs, dir, name) == Some(next)
  }

  ghost predicate Chain(fs: FileSystem, names: seq<Name>, dirs: seq<Path>) {
    && dirs != []
    && (exists name :: name in names && Nearest(fs, fs.root, name) == Some(dirs[0]))
    && forall i :: 0 < i < |dirs| ==> Step(fs, dirs[i - 1], dirs[i])
  }

  ghost predicate Reachable(fs: FileSystem, names: seq<Name>, dir: Path) {
    exists dirs :: Chain(fs, names, dirs) && dirs[|dirs| - 1] == dir
  }

  // The package found for a name is recorded, under whatever spelling.
  ghost predicate Recorded(fs: FileSystem, entries: seq<Entry>, dir: Path, name: Name) {
    && Nearest(fs, dir, name).Some?
    && exists e :: e in entries && fs.realpath(e.sourcePath) == fs.realpath(Nearest(fs, dir, name).value)
  }

  ghost predicate Closed(fs: FileSystem, names: seq<Name>, entries: seq<Entry>) {
    && (forall name :: name in names ==> Recorded(fs, entries, fs.root, name))
    && (forall e, name :: e in entries && Lists(fs, e.sourcePath, name, false) ==>
          Recorded(fs, entries, e.sourcePath, name))
    && (forall e, name :: e in entries && Lists(fs, e.sourcePath, name, true) ==>
          Nearest(fs, e.sourcePath, name).None? || Recorded(fs, entries, e.sourcePath, name))
  }

  ghost predicate Sound(fs: FileSystem, names: seq<Name>, entries: seq<Entry>) {
    forall e :: e in entries ==>
      && Reachable(fs, names, e.sourcePath)
      && fs.realpath(e.sourcePath).Some? && IsWithin(fs.realRoot, fs.realpath(e.sourcePath).value)
      && fs.ManifestAt(e.sourcePath).Some?
      && e.sourcePath == fs.root + e.relativePath && UnderNodeModules(e.relativePath) && Dotless(e.sourcePath)
      && NamedByItem(fs, names, e)
  }

  // An entry carries the name it was asked for by, and lies where that name is found.
  ghost predicate NamedByItem(fs: FileSystem, names: seq<Name>, e: Entry) {
    exists item: Item :: item.name == e.name && Asked(fs, names, item)
                         && Nearest(fs, item.parentDirectory, e.name) == Some(e.sourcePath)
  }

  // No entry twice, and no two entries with one real path.
  ghost predicate DistinctPackages(fs: FileSystem, entries: seq<Entry>) {
    && (forall e :: e in entries ==> multiset(entries)[e] == 1)
    && (forall e, e' :: e in entries && e' in entries && fs.realpath(e.sourcePath) == fs.realpath(e'.sourcePath)
          ==> e == e')
  }

  predicate UnderNodeModules(relative: Path) {
    |relative| > 1 && relative[0] == NODE_MODULES
  }

  // A name that node:path leaves alone: some component, and no dots among them.
  predicate PlainName(name: Name) {
    Components(name) != [] && Dotless(Components(name))
  }

  predicate Placed(fs: FileSystem, dir: Path) {
    IsWithin(fs.root, dir) && Dotless(dir) && (dir == fs.root || dir[|fs.root|] == NODE_MODULES)
  }

  // An item was asked for: by the caller at the root, or by a reachable package.
  ghost predicate Asked(fs: FileSystem, names: seq<Name>, item: Item) {
    Placed(fs, item.parentDirectory)
    && (|| (item.parentDirectory == fs.root && !item.optional && item.name in names)
        || AskedBy(fs, names, item))
  }

  ghost predicate AskedBy(fs: FileSystem, names: seq<Name>, item: Item) {
    Reachable(fs, names, item.parentDirectory) && Lists(fs, item.parentDirectory, item.name, item.optional)
  }

  // What a failure reports is there to be found.
  ghost predicate Found(fs: FileSystem, names: seq<Name>, failure: Failure) {
    match failure
    case Unreadable(dir) =>
      || (dir == fs.root && fs.rootManifest.None?)
      || (Reachable(fs, names, dir) && fs.ManifestAt(dir).None?)
    case NotDeclared(name) =>
      fs.rootManifest.Some? && name in names && OrderedMap.Get(fs.rootManifest.value.dependencies, name) != Some(true)
    case NotInstalled(name) =>
      exists item: Item :: item.name == name && !item.optional && Asked(fs, names, item)
                     && Nearest(fs, item.parentDirectory, name).None?
    case Escapes(name, target) =>
      exists item: Item :: item.name == name && Asked(fs, names, item) && !IsWithin(fs.realRoot, target)
                     && Nearest(fs, item.parentDirectory, name).Some?
                     && fs.realpath(Nearest(fs, item.parentDirectory, name).value) == Some(target)
    case NotUnderNodeModules(name, dir) =>
      exists item: Item :: item.name == name && Asked(fs, names, item)
                     && Nearest(fs, item.parentDirectory, name) == Some(dir)
                     && !(IsWithin(fs.root, dir) && UnderNodeModules(dir[|fs.root|..]))
                     && !PlainName(name)
  }

  function Names(fs: FileSystem, requested: Option<seq<Name>>): seq<Name> {
    if requested.Some? then Dedupe(requested.value)
    else if fs.rootManifest.Some? then OrderedMap.Keys(fs.rootManifest.value.dependencies)
    else []
  }

  // The names given, or else every dependency of the root.
  ghost predicate Requested(fs: FileSystem, requested: Option<seq<Name>>, name: Name) {
    match requested
    case Some(names) => name in names
    case None =>
      fs.rootManifest.Some?
      && exists k :: 0 <= k < |fs.rootManifest.value.dependencies| && fs.rootManifest.value.dependencies[k].0 == name
  }

  lemma NamesAreRequested(fs: FileSystem, requested: Option<seq<Name>>)
    ensures forall name :: name in Names(fs, requested) <==> Requested(fs, requested, name)
  {
    if requested.Some? {
      DedupeKeepsOneOfEach(requested.value);
    } else if fs.rootManifest.Some? {
      var m := fs.rootManifest.value.dependencies;
      OrderedMap.KeysAt(m);
      forall k | 0 <= k < |m| ensures m[k].0 in OrderedMap.Keys(m) { assert OrderedMap.Keys(m)[k] == m[k].0; }
    }
  }

  lemma {:induction false} NearestExists(fs: FileSystem, start: Path, name: Name)
    ensures Nearest(fs, start, name).Some? ==> fs.realpath(Nearest(fs, start, name).value).Some?
    decreases |start|
  {
    if start != [] { NearestExists(fs, start[..|start| - 1], name); }
  }

  lemma {:induction false} ResolvedIsDotless(cs: seq<Text>)
    ensures Dotless(Resolve(cs, false))
  {
    if cs != [] { ResolvedIsDotless(cs[..|cs| - 1]); }
  }

  lemma {:induction false} FoundIsDotless(fs: FileSystem, start: Path, name: Name)
    ensures Nearest(fs, start, name).Some? ==> Dotless(Nearest(fs, start, name).value)
    decreases |start|
  {
    ResolvedIsDotless(start + [NODE_MODULES] + Components(name));
    if start != [] { FoundIsDotless(fs, start[..|start| - 1], name); }
  }

  // The last check of an entry cannot fail for a plain name.
  lemma {:induction false} PlainNamesLandUnderNodeModules(fs: FileSystem, start: Path, name: Name)
    requires Placed(fs, start) && PlainName(name) && Nearest(fs, start, name).Some?
    ensures (var dir := Nearest(fs, start, name).value;
             IsWithin(fs.root, dir) && UnderNodeModules(dir[|fs.root|..]))
    decreases |start|
  {
    var dir := start + [NODE_MODULES] + Components(name);
    if fs.realpath(Candidate(start, name)).Some? {
      ResolveKeepsPlain(dir, false);
    } else {
      PlainNamesLandUnderNodeModules(fs, start[..|start| - 1], name);
    }
  }

  lemma ChainGrows(fs: FileSystem, names: seq<Name>, dirs: seq<Path>, dir: Path)
    requires Chain(fs, names, dirs) && Step(fs, dirs[|dirs| - 1], dir)
    ensures Reachable(fs, names, dir)
  {
    var longer := dirs + [dir];
    forall i | 0 < i < |longer| ensures Step(fs, longer[i - 1], longer[i]) {
      if i < |dirs| { assert longer[i - 1] == dirs[i - 1] && longer[i] == dirs[i]; }
    }
    assert longer[0] == dirs[0];
    assert Chain(fs, names, longer) && longer[|longer| - 1] == dir;
  }

  // A package found for an asked item is reachable.
  lemma FoundIsReachable(fs: FileSystem, names: seq<Name>, item: Item, dir: Path)
    requires Asked(fs, names, item) && Nearest(fs, item.parentDirectory, item.name) == Some(dir)
    ensures Reachable(fs, names, dir)
  {
    if item.parentDirectory == fs.root && !item.optional && item.name in names {
      assert Chain(fs, names, [dir]);
    } else {
      var dirs :| Chain(fs, names, dirs) && dirs[|dirs| - 1] == item.parentDirectory;
      assert Step(fs, item.parentDirectory, dir);
      ChainGrows(fs, names, dirs, dir);
    }
  }

  // ---- The worklist ----

  function Items(names: seq<Name>, parent: Path, optional: bool): seq<Item> {
    seq(|names|, i requires 0 <= i < |names| => Item(names[i], parent, optional))
  }

  lemma ItemsAsk(names: seq<Name>, parent: Path, optional: bool)
    ensures forall item: Item :: item in Items(names, parent, optional)
              <==> item.name in names && item.parentDirectory == parent && item.optional == optional
  {
    forall item: Item | item.name in names && item.parentDirectory == parent && item.optional == optional
      ensures item in Items(names, parent, optional)
    {
      var i :| 0 <= i < |names| && names[i] == item.name;
      assert Items(names, parent, optional)[i] == item;
    }
  }

  // What a package puts on the queue: its dependencies, then its optional ones.
  function Pushed(m: Manifest, dir: Path): seq<Item> {
    Items(Sort(OrderedMap.Keys(m.dependencies), TextLe), dir, false) + Items(Sort(m.optionalDependencies, TextLe), dir, true)
  }

  lemma PushedAsks(m: Manifest, dir: Path)
    ensures forall item: Item :: item in Pushed(m, dir)
              <==> item.parentDirectory == dir && Depends(m, item.name, item.optional)
  {
    TextOrdered();
    SortSorts(OrderedMap.Keys(m.dependencies), TextLe);
    SortSorts(m.optionalDependencies, TextLe);
    ItemsAsk(Sort(OrderedMap.Keys(m.dependencies), TextLe), dir, false);
    ItemsAsk(Sort(m.optionalDependencies, TextLe), dir, true);
  }

  // An item behind the index: found and recorded, or optional and absent.
  ghost predicate Settled(fs: FileSystem, entries: seq<Entry>, item: Item) {
    (Nearest(fs, item.parentDirectory, item.name).None? && item.optional)
    || Recorded(fs, entries, item.parentDirectory, item.name)
  }

  ghost predicate AllAsked(fs: FileSystem, names: seq<Name>, queue: seq<Item>) {
    forall item :: item in queue ==> Asked(fs, names, item)
  }

  ghost predicate AllSettled(fs: FileSystem, entries: seq<Entry>, items: seq<Item>) {
    forall item :: item in items ==> Settled(fs, entries, item)
  }

  // Every name asked at the root or by an entry is on the queue.
  ghost predicate AllQueued(fs: FileSystem, names: seq<Name>, entries: seq<Entry>, queue: seq<Item>) {
    && (forall name :: name in names ==> Item(name, fs.root, false) in queue)
    && (forall e, name, optional :: e in entries && Lists(fs, e.sourcePath, name, optional)
          ==> Item(name, e.sourcePath, optional) in queue)
  }

  ghost predicate Visits(fs: FileSystem, entries: seq<Entry>, visited: set<Path>) {
    && (forall e :: e in entries ==> fs.realpath(e.sourcePath).Some? && fs.realpath(e.sourcePath).value in visited)
    && (forall target :: target in visited ==> exists e :: e in entries && fs.realpath(e.sourcePath) == Some(target))
  }

  lemma SettledMeansClosed(fs: FileSystem, names: seq<Name>, entries: seq<Entry>, queue: seq<Item>)
    requires AllSettled(fs, entries, queue) && AllQueued(fs, names, entries, queue)
    ensures Closed(fs, names, entries)
  {
    forall name | name in names ensures Recorded(fs, entries, fs.root, name) {
      assert Settled(fs, entries, Item(name, fs.root, false));
    }
    forall e, name | e in entries && Lists(fs, e.sourcePath, name, false)
      ensures Recorded(fs, entries, e.sourcePath, name)
    {
      assert Settled(fs, entries, Item(name, e.sourcePath, false));
    }
    forall e, name | e in entries && Lists(fs, e.sourcePath, name, true)
      ensures Nearest(fs, e.sourcePath, name).None? || Recorded(fs, entries, e.sourcePath, name)
    {
      assert Settled(fs, entries, Item(name, e.sourcePath, true));
    }
  }

  // The state of the loop: done is the part of the queue behind the index.
  ghost predicate Worklist(fs: FileSystem, names: seq<Name>, queue: seq<Item>, done: seq<Item>,
                           entries: seq<Entry>, visited: set<Path>)
  {
    && AllAsked(fs, names, queue) && AllQueued(fs, names, entries, queue) && AllSettled(fs, entries, done)
    && Sound(fs, names, entries) && DistinctPackages(fs, entries) && Visits(fs, entries, visited)
  }

  lemma ItemDone(fs: FileSystem, names: seq<Name>, queue: seq<Item>, done: seq<Item>, item: Item,
                 entries: seq<Entry>, visited: set<Path>)
    requires Worklist(fs, names, queue, done, entries, visited) && Settled(fs, entries, item)
    ensures Worklist(fs, names, queue, done + [item], entries, visited)
  {
  }

  lemma SeenIsSettled(fs: FileSystem, entries: seq<Entry>, visited: set<Path>, item: Item)
    requires Visits(fs, entries, visited) && Nearest(fs, item.parentDirectory, item.name).Some?
    requires fs.realpath(Nearest(fs, item.parentDirectory, item.name).value).Some?
    requires fs.realpath(Nearest(fs, item.parentDirectory, item.name).value).value in visited
    ensures Settled(fs, entries, item)
  {
  }

  lemma EntryIsDistinct(fs: FileSystem, entries: seq<Entry>, entry: Entry, visited: set<Path>)
    requires DistinctPackages(fs, entries) && Visits(fs, entries, visited)
    requires fs.realpath(entry.sourcePath).Some? && fs.realpath(entry.sourcePath).value !in visited
    ensures DistinctPackages(fs, entries + [entry])
    ensures Visits(fs, entries + [entry], visited + {fs.realpath(entry.sourcePath).value})
  {
    assert entry !in entries;
    var entries' := entries + [entry];
    assert multiset(entries') == multiset(entries) + multiset{entry};
    forall target | target in visited + {fs.realpath(entry.sourcePath).value}
      ensures exists e :: e in entries' && fs.realpath(e.sourcePath) == Some(target)
    {
      if target in visited {
        var e :| e in entries && fs.realpath(e.sourcePath) == Some(target);
        assert e in entries';
      } else {
        assert entry in entries';
      }
    }
  }

  lemma SettledStays(fs: FileSystem, entries: seq<Entry>, entry: Entry, item: Item)
    requires Settled(fs, entries, item)
    ensures Settled(fs, entries + [entry], item)
  {
    if Recorded(fs, entries, item.parentDirectory, item.name) {
      var target := fs.realpath(Nearest(fs, item.parentDirectory, item.name).value);
      var e :| e in entries && fs.realpath(e.sourcePath) == target;
      assert e in entries + [entry];
    }
  }

  lemma QueueGrows(fs: FileSystem, names: seq<Name>, queue: seq<Item>, entries: seq<Entry>, entry: Entry)
    requires AllAsked(fs, names, queue) && AllQueued(fs, names, entries, queue)
    requires Placed(fs, entry.sourcePath) && Reachable(fs, names, entry.sourcePath) && fs.ManifestAt(entry.sourcePath).Some?
    ensures (var queue' := queue + Pushed(fs.ManifestAt(entry.sourcePath).value, entry.sourcePath);
             AllAsked(fs, names, queue') && AllQueued(fs, names, entries + [entry], queue'))
  {
    var dir := entry.sourcePath;
    var pushed := Pushed(fs.ManifestAt(dir).value, dir);
    PushedAsks(fs.ManifestAt(dir).value, dir);
    forall item | item in queue + pushed ensures Asked(fs, names, item) {
      if item in pushed { assert AskedBy(fs, names, item); }
    }
    forall e, name, optional | e in entries + [entry] && Lists(fs, e.sourcePath, name, optional)
      ensures Item(name, e.sourcePath, optional) in queue + pushed
    {
      if e !in entries { assert Item(name, dir, optional) in pushed; }
    }
  }

  lemma SoundGrows(fs: FileSystem, names: seq<Name>, entries: seq<Entry>, entry: Entry)
    requires Sound(fs, names, entries) && Sound(fs, names, [entry])
    ensures Sound(fs, names, entries + [entry])
    ensures Placed(fs, entry.sourcePath) && Reachable(fs, names, entry.sourcePath)
    ensures fs.realpath(entry.sourcePath).Some? && fs.ManifestAt(entry.sourcePath).Some?
  {
    assert entry in [entry];
  }

  // Recording one more package keeps every fact about the others.
  lemma EntryAdded(fs: FileSystem, names: seq<Name>, queue: seq<Item>, done: seq<Item>,
                   entries: seq<Entry>, entry: Entry, visited: set<Path>)
    requires Worklist(fs, names, queue, done, entries, visited) && Sound(fs, names, [entry])
    requires entry in [entry] && fs.realpath(entry.sourcePath).value !in visited
    ensures Worklist(fs, names, queue + Pushed(fs.ManifestAt(entry.sourcePath).value, entry.sourcePath), done,
                     entries + [entry], visited + {fs.realpath(entry.sourcePath).value})
  {
    SoundGrows(fs, names, entries, entry);
    QueueGrows(fs, names, queue, entries, entry);
    EntryIsDistinct(fs, entries, entry, visited);
    forall item | item in done ensures Settled(fs, entries + [entry], item) {
      SettledStays(fs, entries, entry, item);
    }
  }

  function RelativeLe(localeLe: (Path, Path) -> bool): (Entry, Entry) -> bool {
    (left: Entry, right: Entry) => localeLe(left.relativePath, right.relativePath)
  }

  method CheckDeclared(fs: FileSystem, names: seq<Name>) returns (failure: Option<Failure>)
    requires fs.rootManifest.Some?
    ensures failure.None? <==> forall name :: name in names ==>
              OrderedMap.Get(fs.rootManifest.value.dependencies, name) == Some(true)
    ensures failure.Some? ==> Found(fs, names, failure.value)
  {
    for i := 0 to |names|
      invariant forall k :: 0 <= k < i ==> OrderedMap.Get(fs.rootManifest.value.dependencies, names[k]) == Some(true)
    {
      if OrderedMap.Get(fs.rootManifest.value.dependencies, names[i]) != Some(true) {
        assert names[i] in names;
        return Some(NotDeclared(names[i]));
      }
    }
    return None;
  }

  lemma LookupFailureIsFound(fs: FileSystem, names: seq<Name>, item: Item)
    requires Asked(fs, names, item) && Lookup(fs, item).Err?
    ensures Found(fs, names, Lookup(fs, item).error)
  {
    NearestExists(fs, item.parentDirectory, item.name);
  }

  lemma EntryIsSound(fs: FileSystem, names: seq<Name>, item: Item, dir: Path)
    requires Asked(fs, names, item) && Nearest(fs, item.parentDirectory, item.name) == Some(dir)
    requires fs.realpath(dir).Some? && IsWithin(fs.realRoot, fs.realpath(dir).value) && fs.ManifestAt(dir).Some?
    requires IsWithin(fs.root, dir) && UnderNodeModules(dir[|fs.root|..])
    ensures Sound(fs, names, [Entry(item.name, dir, dir[|fs.root|..])])
  {
    FoundIsReachable(fs, names, item, dir);
    FoundIsDotless(fs, item.parentDirectory, item.name);
    assert NamedByItem(fs, names, Entry(item.name, dir, dir[|fs.root|..]));
  }

  // A package that is new becomes an entry: it must lie under node_modules and be readable.
  method MakeEntry(fs: FileSystem, ghost names: seq<Name>, item: Item, packageDirectory: Path)
    returns (r: Result<Entry, Failure>)
    requires Asked(fs, names, item) && Lookup(fs, item) == Ok(Some(packageDirectory))
    requires fs.realpath(packageDirectory).Some?
    ensures r.Ok? ==> r.value.name == item.name && r.value.sourcePath == packageDirectory && Sound(fs, names, [r.value])
    ensures r.Err? ==> Found(fs, names, r.error)
  {
    if !IsWithin(fs.root, packageDirectory) || !UnderNodeModules(packageDirectory[|fs.root|..]) {
      MisplacedIsFound(fs, names, item, packageDirectory);
      return Err(NotUnderNodeModules(item.name, packageDirectory));
    }
    if fs.ManifestAt(packageDirectory).None? {
      FoundIsReachable(fs, names, item, packageDirectory);
      return Err(Unreadable(packageDirectory));
    }
    EntryIsSound(fs, names, item, packageDirectory);
    return Ok(Entry(item.name, packageDirectory, packageDirectory[|fs.root|..]));
  }

  lemma MisplacedIsFound(fs: FileSystem, names: seq<Name>, item: Item, dir: Path)
    requires Asked(fs, names, item) && Nearest(fs, item.parentDirectory, item.name) == Some(dir)
    requires !IsWithin(fs.root, dir) || !UnderNodeModules(dir[|fs.root|..])
    ensures Found(fs, names, NotUnderNodeModules(item.name, dir))
  {
    if PlainName(item.name) { PlainNamesLandUnderNodeModules(fs, item.parentDirectory, item.name); }
  }

  // One item: nothing to record, a new entry, or a failure.
  method TakeItem(fs: FileSystem, ghost names: seq<Name>, item: Item, visited: set<Path>)
    returns (r: Result<Option<Entry>, Failure>)
    requires Asked(fs, names, item)
    ensures r.Err? ==> Found(fs, names, r.error)
    ensures r.Ok? && r.value.None? ==> Passed(fs, item, visited)
    ensures r.Ok? && r.value.Some? ==>
              var entry := r.value.value;
              && Sound(fs, names, [entry]) && entry in [entry] && entry.name == item.name
              && Nearest(fs, item.parentDirectory, item.name) == Some(entry.sourcePath)
              && fs.realpath(entry.sourcePath).Some? && fs.realpath(entry.sourcePath).value !in visited
  {
    var found := ResolveDependencyPackage(fs, item);
    if found.Err? {
      LookupFailureIsFound(fs, names, item);
      return Err(found.error);
    }
    if found.value.None? { return Ok(None); }
    if fs.realpath(found.value.value).value in visited { return Ok(None); }
    var entry := MakeEntry(fs, names, item, found.value.value);
    if entry.Err? { return Err(entry.error); }
    return Ok(Some(entry.value));
  }

  // Optional and absent, or found at a real path already visited.
  ghost predicate Passed(fs: FileSystem, item: Item, visited: set<Path>) {
    var nearest := Nearest(fs, item.parentDirectory, item.name);
    if nearest.None? then item.optional
    else fs.realpath(nearest.value).Some? && fs.realpath(nearest.value).value in visited
  }

  lemma ItemPassed(fs: FileSystem, names: seq<Name>, queue: seq<Item>, index: nat,
                   entries: seq<Entry>, visited: set<Path>)
    requires index < |queue| && Worklist(fs, names, queue, queue[..index], entries, visited)
    requires Passed(fs, queue[index], visited)
    ensures Worklist(fs, names, queue, queue[..index + 1], entries, visited)
  {
    PrefixGrows(queue, [], index);
    if Nearest(fs, queue[index].parentDirectory, queue[index].name).Some? {
      SeenIsSettled(fs, entries, visited, queue[index]);
    }
    ItemDone(fs, names, queue, queue[..index], queue[index], entries, visited);
  }

  lemma ItemTaken(fs: FileSystem, names: seq<Name>, queue: seq<Item>, index: nat,
                  entries: seq<Entry>, entry: Entry, visited: set<Path>)
    requires index < |queue| && Worklist(fs, names, queue, queue[..index], entries, visited)
    requires Sound(fs, names, [entry]) && entry in [entry]
    requires Nearest(fs, queue[index].parentDirectory, queue[index].name) == Some(entry.sourcePath)
    requires fs.realpath(entry.sourcePath).value !in visited
    ensures (var queue' := queue + Pushed(fs.ManifestAt(entry.sourcePath).value, entry.sourcePath);
             Worklist(fs, names, queue', queue'[..index + 1], entries + [entry],
                      visited + {fs.realpath(entry.sourcePath).value}))
  {
    var pushed := Pushed(fs.ManifestAt(entry.sourcePath).value, entry.sourcePath);
    PrefixGrows(queue, pushed, index);
    EntryAdded(fs, names, queue, queue[..index], entries, entry, visited);
    var entries', visited' := entries + [entry], visited + {fs.realpath(entry.sourcePath).value};
    SeenIsSettled(fs, entries', visited', queue[index]);
    ItemDone(fs, names, queue + pushed, queue[..index], queue[index], entries', visited');
  }

  lemma PrefixGrows(queue: seq<Item>, more: seq<Item>, index: nat)
    requires index < |queue|
    ensures (queue + more)[..index + 1] == queue[..index] + [queue[index]]
    ensures queue[..index + 1] == queue[..index] + [queue[index]]
  {
  }

  lemma Start(fs: FileSystem, names: seq<Name>, queue: seq<Item>)
    requires fs.Valid() && queue == Items(Sort(names, TextLe), fs.root, false)
    ensures Worklist(fs, names, queue, [], [], {})
  {
    TextOrdered();
    SortSorts(names, TextLe);
    ItemsAsk(Sort(names, TextLe), fs.root, false);
  }

  lemma Finished(fs: FileSystem, names: seq<Name>, queue: seq<Item>, entries: seq<Entry>, visited: set<Path>,
                 localeLe: (Path, Path) -> bool)
    requires Worklist(fs, names, queue, queue, entries, visited) && TotalPreorder(localeLe)
    ensures IsClosure(fs, names, Sort(entries, RelativeLe(localeLe)), localeLe)
  {
    SettledMeansClosed(fs, names, entries, queue);
    SortedEntries(fs, names, entries, localeLe);
  }

  // What the caller gets: every needed package, only reachable ones, each once, in order.
  ghost predicate IsClosure(fs: FileSystem, names: seq<Name>, entries: seq<Entry>, localeLe: (Path, Path) -> bool) {
    && Closed(fs, names, entries) && Sound(fs, names, entries)
    && DistinctPackages(fs, entries) && Sorted(entries, RelativeLe(localeLe))
  }

  // One turn of the loop.
  method Advance(fs: FileSystem, ghost names: seq<Name>, queue: seq<Item>, index: nat, entries: seq<Entry>, visited: set<Path>)
    returns (failure: Option<Failure>, queue': seq<Item>, entries': seq<Entry>, visited': set<Path>)
    requires fs.Valid() && index < |queue| && Worklist(fs, names, queue, queue[..index], entries, visited)
    ensures failure.Some? ==> Found(fs, names, failure.value)
    ensures failure.None? ==> index < |queue'| && Worklist(fs, names, queue', queue'[..index + 1], entries', visited')
    ensures (queue' == queue && visited' == visited)
            || exists target :: target in fs.manifests && target !in visited && visited' == visited + {target}
  {
    failure, queue', entries', visited' := None, queue, entries, visited;
    assert queue[index] in queue;
    var taken := TakeItem(fs, names, queue[index], visited);
    if taken.Err? {
      failure := Some(taken.error);
    } else if taken.value.None? {
      ItemPassed(fs, names, queue, index, entries, visited);
    } else {
      var entry := taken.value.value;
      ItemTaken(fs, names, queue, index, entries, entry, visited);
      visited' := visited + {fs.realpath(entry.sourcePath).value};
      entries' := entries + [entry];
      queue' := queue + Pushed(fs.ManifestAt(entry.sourcePath).value, entry.sourcePath);
    }
  }

  // The loop, from the requested names to the end of the queue.
  method RunWorklist(fs: FileSystem, names: seq<Name>)
    returns (failure: Option<Failure>, ghost queue: seq<Item>, entries: seq<Entry>, ghost visited: set<Path>)
    requires fs.Valid()
    ensures failure.Some? ==> Found(fs, names, failure.value)
    ensures failure.None? ==> Worklist(fs, names, queue, queue, entries, visited)
  {
    var pending, seen, index := Items(Sort(names, TextLe), fs.root, false), {}, 0;
    failure, entries := None, [];
    Start(fs, names, pending);
    while index < |pending|
      invariant 0 <= index <= |pending|
      invariant Worklist(fs, names, pending, pending[..index], entries, seen)
      decreases fs.manifests.Keys - seen, |pending| - index
    {
      failure, pending, entries, seen := Advance(fs, names, pending, index, entries, seen);
      if failure.Some? { return failure, pending, entries, seen; }
      index := index + 1;
    }
    failure := None;
    assert pending[..index] == pending;
    queue, visited := pending, seen;
  }

  // The entries found from the requested names, or the first failure met.
  method ResolveRuntimeDependencyEntries(fs: FileSystem, requested: Option<seq<Name>>, localeLe: (Path, Path) -> bool)
    returns (r: Result<seq<Entry>, Failure>)
    requires fs.Valid() && TotalPreorder(localeLe)
    ensures forall name :: name in Names(fs, requested) <==> Requested(fs, requested, name)
    ensures r.Ok? ==> fs.rootManifest.Some?
                      && forall name :: Requested(fs, requested, name) ==>
                           OrderedMap.Get(fs.rootManifest.value.dependencies, name) == Some(true)
    ensures r.Ok? ==> IsClosure(fs, Names(fs, requested), r.value, localeLe)
    ensures r.Err? ==> Found(fs, Names(fs, requested), r.error)
  {
    NamesAreRequested(fs, requested);
    if fs.rootManifest.None? { return Err(Unreadable(fs.root)); }
    var names := Names(fs, requested);
    var undeclared := CheckDeclared(fs, names);
    if undeclared.Some? { return Err(undeclared.value); }
    ghost var queue, visited;
    var failure, entries;
    failure, queue, entries, visited := RunWorklist(fs, names);
    if failure.Some? { return Err(failure.value); }
    Finished(fs, names, queue, entries, visited, localeLe);
    return Ok(Sort(entries, RelativeLe(localeLe)));
  }

  // Sorting the entries keeps what is known of them.
  lemma RelativeOrder(localeLe: (Path, Path) -> bool)
    requires TotalPreorder(localeLe)
    ensures TotalPreorder(RelativeLe(localeLe))
  {
    var le := RelativeLe(localeLe);
    forall x, y ensures le(x, y) || le(y, x) {
      assert localeLe(x.relativePath, y.relativePath) || localeLe(y.relativePath, x.relativePath);
    }
    forall x, y, z | le(x, y) && le(y, z) ensures le(x, z) {
      assert localeLe(x.relativePath, y.relativePath) && localeLe(y.relativePath, z.relativePath);
    }
  }

  lemma SortedEntries(fs: FileSystem, names: seq<Name>, entries: seq<Entry>, localeLe: (Path, Path) -> bool)
    requires TotalPreorder(localeLe)
    requires Closed(fs, names, entries) && Sound(fs, names, entries) && DistinctPackages(fs, entries)
    ensures (var sorted := Sort(entries, RelativeLe(localeLe));
             && Closed(fs, names, sorted) && Sound(fs, names, sorted)
             && DistinctPackages(fs, sorted) && Sorted(sorted, RelativeLe(localeLe)))
  {
    var le := RelativeLe(localeLe);
    RelativeOrder(localeLe);
    SortSorts(entries, le);
    var sorted := Sort(entries, le);
    forall dir, name | Recorded(fs, entries, dir, name) ensures Recorded(fs, sorted, dir, name) {
      var e :| e in entries && fs.realpath(e.sourcePath) == fs.realpath(Nearest(fs, dir, name).value);
      assert e in sorted;
    }
  }
}
