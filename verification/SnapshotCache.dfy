/** The registry snapshot cache (src/opentide/core/index_manager.py, src/opentide/core/registry.py):
    what is kept between runs, when it is reused, and the memos and typed objects tied to it. */
module SnapshotCache {
  import opened Options

  // ---------- The disk and a build ----------

  /** `stamp` stands for `st_mtime_ns` and `st_size`: every write gives a file one it never had. */
  datatype File = File(stamp: nat, content: string)

  datatype Disk = Disk(files: map<string, File>, folders: set<string>)

  /** One element of a fingerprint. */
  datatype Entry = FileEntry(path: string, stamp: nat) | FolderEntry(folder: string)

  /** `_PRESENTATION_VARIABLES` aside, what `retention_key` holds: roots, directory, variables. */
  type Key = string

  /** How one key's workspace is laid out: where its configuration lives, and the folders that
      configuration names; `None` when it does not validate. */
  datatype Layout = Layout(configFolders: set<string>, folders: map<string, string> -> Option<set<string>>)

  /** What a build has read: the configuration, the folders it names, and their files. */
  datatype Registry = Registry(config: map<string, string>, folders: set<string>, contents: map<string, string>)

  predicate Under(folder: string, path: string) { folder + "/" <= path }

  predicate UnderAny(folders: set<string>, path: string) {
    exists f :: f in folders && Under(f, path)
  }

  function FilesUnder(disk: Disk, folders: set<string>): map<string, string> {
    map p | p in disk.files && UnderAny(folders, p) :: disk.files[p].content
  }

  /** `_read_folders`: the folders the configuration names, and the configuration folders themselves. */
  function ReadFolders(layout: Layout, config: map<string, string>): Option<set<string>> {
    match layout.folders(config)
    case None => None
    case Some(named) => Some(named + layout.configFolders)
  }

  /** What a build of an untouched disk returns. */
  function FreshBuild(layout: Layout, disk: Disk): Option<Registry> {
    var config := FilesUnder(disk, layout.configFolders);
    match ReadFolders(layout, config)
    case None => None
    case Some(folders) => Some(Registry(config, folders, FilesUnder(disk, folders)))
  }

  function Fingerprint(disk: Disk, folders: set<string>): set<Entry> {
    (set p | p in disk.files && UnderAny(folders, p) :: FileEntry(p, disk.files[p].stamp))
    + (set f | f in disk.folders && (f in folders || UnderAny(folders, f)) :: FolderEntry(f))
  }

  /** Two fingerprints are equal exactly when the same files stand under the folders, each with the
      same stamp, and the same folders. */
  lemma SameFingerprintIff(disk: Disk, later: Disk, folders: set<string>)
    ensures Fingerprint(disk, folders) == Fingerprint(later, folders)
            <==> && (forall p :: UnderAny(folders, p) ==> StampOf(disk, p) == StampOf(later, p))
                 && (forall f :: f in folders || UnderAny(folders, f) ==> (f in disk.folders <==> f in later.folders))
  {
    hide UnderAny;
    var a, b := Fingerprint(disk, folders), Fingerprint(later, folders);
    if a == b {
      forall p | UnderAny(folders, p) ensures StampOf(disk, p) == StampOf(later, p) {
        if p in disk.files { assert FileEntry(p, disk.files[p].stamp) in b; }
        if p in later.files { assert FileEntry(p, later.files[p].stamp) in a; }
      }
      forall f | f in folders || UnderAny(folders, f) ensures f in disk.folders <==> f in later.folders {
        assert FolderEntry(f) in a <==> FolderEntry(f) in b;
      }
    }
  }

  function StampOf(disk: Disk, p: string): Option<nat> {
    if p in disk.files then Some(disk.files[p].stamp) else None
  }

  lemma UnderMeans(folder: string, path: string)
    ensures Under(folder, path) <==> exists name :: path == folder + "/" + name
  {
    if Under(folder, path) { assert path == folder + "/" + path[|folder| + 1..]; }
  }

  function PathsIn(fingerprint: set<Entry>): set<string> {
    set e | e in fingerprint && e.FileEntry? :: e.path
  }

  /** Every path the build found a file at. */
  function PathsRead(r: Registry): set<string> { r.config.Keys + r.contents.Keys }

  // ---------- What reading beside writers guarantees ----------

  /** The file at `p` is still the one the fingerprint saw. */
  predicate Untouched(fp: set<Entry>, disk: Disk, p: string) {
    p in disk.files && FileEntry(p, disk.files[p].stamp) in fp
  }

  ghost predicate ReadAt(fp: set<Entry>, disk: Disk, read: map<string, string>, p: string) {
    Untouched(fp, disk, p) ==> p in read && read[p] == disk.files[p].content
  }

  /** Whatever was read since, a file the fingerprint saw and that is still untouched was read as it is. */
  ghost predicate Stable(fp: set<Entry>, disk: Disk, folders: set<string>, read: map<string, string>) {
    forall p :: UnderAny(folders, p) ==> ReadAt(fp, disk, read, p)
  }

  ghost predicate Before(fp: set<Entry>, clock: nat) {
    forall e :: e in fp && e.FileEntry? ==> e.stamp < clock
  }

  /** Other processes have written: a file is the same one, or has a stamp from after `clock`. */
  ghost predicate Evolved(disk: Disk, clock: nat, later: Disk) {
    forall p :: p in later.files
      ==> (p in disk.files && later.files[p] == disk.files[p]) || later.files[p].stamp >= clock
  }

  lemma StillStable(fp: set<Entry>, disk: Disk, clock: nat, later: Disk, folders: set<string>,
                    read: map<string, string>)
    requires Before(fp, clock) && Evolved(disk, clock, later) && Stable(fp, disk, folders, read)
    ensures Stable(fp, later, folders, read)
  {
    forall p | UnderAny(folders, p) && Untouched(fp, later, p)
      ensures p in read && read[p] == later.files[p].content
    {
      assert ReadAt(fp, disk, read, p);
    }
  }

  /** A kept snapshot: its folders follow from the configuration it read, and it read every file
      the fingerprint saw that is still untouched as it is. */
  ghost predicate KeptOk(layout: Layout, disk: Disk, clock: nat, r: Registry, fp: set<Entry>) {
    && Before(fp, clock)
    && ReadFolders(layout, r.config) == Some(r.folders)
    && Stable(fp, disk, layout.configFolders, r.config)
    && Stable(fp, disk, r.folders, r.contents)
  }

  lemma SeenNow(disk: Disk, folders: set<string>, fp: set<Entry>, p: string)
    requires Fingerprint(disk, folders) == fp && UnderAny(folders, p)
    ensures p in disk.files <==> p in PathsIn(fp)
    ensures p in disk.files ==> Untouched(fp, disk, p)
  {
    if p in disk.files {
      assert FileEntry(p, disk.files[p].stamp) in fp;
    }
    if p in PathsIn(fp) {
      var e :| e in fp && e.FileEntry? && e.path == p;
    }
  }

  lemma ReadAsNow(disk: Disk, folders: set<string>, among: set<string>, fp: set<Entry>, read: map<string, string>)
    requires Fingerprint(disk, folders) == fp && among <= folders
    requires Stable(fp, disk, among, read)
    requires read.Keys <= PathsIn(fp) && forall p :: p in read ==> UnderAny(among, p)
    ensures read == FilesUnder(disk, among)
  {
    forall p ensures Get(read, p) == Get(FilesUnder(disk, among), p) {
      if UnderAny(among, p) {
        assert UnderAny(folders, p);
        SeenNow(disk, folders, fp, p);
        assert ReadAt(fp, disk, read, p);
      }
    }
    SameLookups(read, FilesUnder(disk, among));
  }

  /** Reuse is right exactly when the build found no file that the fingerprint taken before it had
      not seen. A file created after the fingerprint and deleted before the check is in the kept
      snapshot, in neither fingerprint, and in no fresh build. */
  lemma ReusedIsFreshIff(layout: Layout, disk: Disk, clock: nat, r: Registry, fp: set<Entry>)
    requires KeptOk(layout, disk, clock, r, fp) && Fingerprint(disk, r.folders) == fp
    requires forall p :: p in r.config ==> UnderAny(layout.configFolders, p)
    requires forall p :: p in r.contents ==> UnderAny(r.folders, p)
    ensures FreshBuild(layout, disk) == Some(r) <==> PathsRead(r) <= PathsIn(fp)
  {
    if PathsRead(r) <= PathsIn(fp) {
      ReadAsNow(disk, r.folders, layout.configFolders, fp, r.config);
      ReadAsNow(disk, r.folders, r.folders, fp, r.contents);
    }
    if FreshBuild(layout, disk) == Some(r) {
      forall p | p in PathsRead(r) ensures p in PathsIn(fp) {
        assert UnderAny(r.folders, p);
        SeenNow(disk, r.folders, fp, p);
      }
    }
  }

  /** Such a run, on any disk and in any folder that its configuration names: a new file is written
      after the fingerprint and removed after the build, and the fingerprints agree. */
  lemma PhantomFile(layout: Layout, disk: Disk, clock: nat, folder: string, path: string, content: string)
    requires forall p :: p in disk.files ==> disk.files[p].stamp < clock
    requires FreshBuild(layout, disk).Some? && folder in FreshBuild(layout, disk).value.folders
    requires Under(folder, path) && path !in disk.files && !UnderAny(layout.configFolders, path)
    ensures var during := disk.(files := disk.files[path := File(clock, content)]);
            && Evolved(disk, clock, during) && Evolved(during, clock + 1, disk)
            && FreshBuild(layout, during).Some?
            && var r := FreshBuild(layout, during).value;
               var fp := Fingerprint(disk, r.folders);
               && r.folders == FreshBuild(layout, disk).value.folders
               && KeptOk(layout, disk, clock + 1, r, fp) && FreshBuild(layout, disk) != Some(r)
  {
    hide Under;
    var during := disk.(files := disk.files[path := File(clock, content)]);
    assert FilesUnder(during, layout.configFolders) == FilesUnder(disk, layout.configFolders);
    var r := FreshBuild(layout, during).value;
    assert UnderAny(r.folders, path);
    assert path in r.contents && path !in FilesUnder(disk, r.folders);
  }

  // ---------- Reading one folder ----------

  function Listing(disk: Disk, folder: string): set<string> {
    set p | p in disk.files && Under(folder, p)
  }

  /** Every file under the folder but the ones still to be opened has been read as it was found. */
  ghost predicate RestStable(fp: set<Entry>, disk: Disk, folder: string, names: set<string>,
                             read: map<string, string>) {
    forall p :: Under(folder, p) && p !in names ==> ReadAt(fp, disk, read, p)
  }

  /** On a still disk: the files that have been opened. */
  ghost predicate ReadSoFar(disk: Disk, folder: string, names: set<string>, read: map<string, string>) {
    && names <= Listing(disk, folder)
    && read == map p | p in disk.files && Under(folder, p) && p !in names :: disk.files[p].content
  }

  lemma NothingRead(fp: set<Entry>, disk: Disk, folder: string)
    ensures RestStable(fp, disk, folder, Listing(disk, folder), map[])
    ensures ReadSoFar(disk, folder, Listing(disk, folder), map[])
    ensures forall p :: p in Listing(disk, folder) ==> Under(folder, p)
  {
    hide Under;
  }

  lemma AllRead(fp: set<Entry>, disk: Disk, folder: string, read: map<string, string>)
    requires RestStable(fp, disk, folder, {}, read)
    ensures Stable(fp, disk, {folder}, read)
    ensures ReadSoFar(disk, folder, {}, read) ==> read == FilesUnder(disk, {folder})
  {
    hide Under;
    assert folder in {folder};
  }

  lemma OneMoreRead(fp: set<Entry>, first: Disk, start: nat, before: Disk, was: nat, disk: Disk, clock: nat,
                    folder: string, names: set<string>, sofar: map<string, string>, p: string,
                    read: map<string, string>)
    requires Before(fp, was) && was <= clock && start <= was && Evolved(first, start, before)
             && Evolved(before, was, disk)
    requires clock == was ==> disk == before
    requires p in names && RestStable(fp, before, folder, names, sofar)
    requires read == if p in disk.files then sofar[p := disk.files[p].content] else sofar
    ensures Before(fp, clock) && RestStable(fp, disk, folder, names - {p}, read) && Evolved(first, start, disk)
    ensures clock == was && ReadSoFar(before, folder, names, sofar) ==> ReadSoFar(disk, folder, names - {p}, read)
  {
    hide Under;
    forall q | Under(folder, q) && q !in names - {p} ensures ReadAt(fp, disk, read, q) {
      if q != p { assert ReadAt(fp, before, sofar, q); }
    }
  }

  // ---------- Walking one folder for its fingerprint ----------

  /** Every file under the folders that was there before `since` is among the entries as it is now. */
  ghost predicate Walked(entries: set<Entry>, disk: Disk, folders: set<string>, since: nat) {
    forall p :: p in disk.files && UnderAny(folders, p) ==> Untouched(entries, disk, p) || disk.files[p].stamp >= since
  }

  /** The same of one folder, but for the files still to be looked at. */
  ghost predicate RestWalked(entries: set<Entry>, disk: Disk, folder: string, names: set<string>, since: nat) {
    forall p :: p in disk.files && Under(folder, p) && p !in names ==>
      Untouched(entries, disk, p) || disk.files[p].stamp >= since
  }

  /** An entry is of a file that was on the disk at `since`, or was written later. */
  ghost predicate Real(entries: set<Entry>, disk: Disk, since: nat) {
    forall e :: e in entries && e.FileEntry? ==>
      (e.path in disk.files && disk.files[e.path].stamp == e.stamp) || e.stamp >= since
  }

  function FolderEntries(disk: Disk, folder: string): set<Entry> {
    set f | f in disk.folders && (f == folder || Under(folder, f)) :: FolderEntry(f)
  }

  /** On a still disk: the entries of the files that have been looked at, and of the folders. */
  ghost predicate WalkedSoFar(disk: Disk, folder: string, names: set<string>, entries: set<Entry>) {
    && names <= Listing(disk, folder)
    && entries == (set p | p in disk.files && Under(folder, p) && p !in names :: FileEntry(p, disk.files[p].stamp))
                  + FolderEntries(disk, folder)
  }

  lemma NothingWalked(disk: Disk, folder: string, since: nat)
    ensures var entries, names := FolderEntries(disk, folder), Listing(disk, folder);
      && RestWalked(entries, disk, folder, names, since) && Real(entries, disk, since)
      && WalkedSoFar(disk, folder, names, entries)
  {
    hide Under;
  }

  lemma AllWalked(disk: Disk, folder: string, entries: set<Entry>, since: nat)
    requires RestWalked(entries, disk, folder, {}, since)
    ensures Walked(entries, disk, {folder}, since)
    ensures WalkedSoFar(disk, folder, {}, entries) ==> entries == Fingerprint(disk, {folder})
  {
    hide Under;
    assert folder in {folder};
    forall p ensures UnderAny({folder}, p) <==> Under(folder, p) {}
  }

  lemma OneMoreWalked(first: Disk, since: nat, before: Disk, was: nat, disk: Disk, folder: string, names: set<string>,
                      sofar: set<Entry>, p: string, entries: set<Entry>)
    requires since <= was && Evolved(before, was, disk) && Evolved(first, since, disk)
    requires p in names && RestWalked(sofar, before, folder, names, since) && Real(sofar, first, since)
    requires entries == if p in disk.files then sofar + {FileEntry(p, disk.files[p].stamp)} else sofar
    ensures RestWalked(entries, disk, folder, names - {p}, since) && Real(entries, first, since)
    ensures disk == before && WalkedSoFar(before, folder, names, sofar)
            ==> WalkedSoFar(disk, folder, names - {p}, entries)
  {
    hide Under;
    forall q | q in disk.files && Under(folder, q) && q !in names - {p}
      ensures Untouched(entries, disk, q) || disk.files[q].stamp >= since
    {
      if q != p && disk.files[q].stamp < since { assert q in before.files && before.files[q] == disk.files[q]; }
    }
  }

  lemma MoreWalked(disk: Disk, done: set<string>, f: string, entries: set<Entry>, more: set<Entry>, since: nat)
    requires Walked(entries, disk, done, since) && Walked(more, disk, {f}, since)
    ensures Walked(entries + more, disk, done + {f}, since)
  {
    forall p | p in disk.files && UnderAny(done + {f}, p)
      ensures Untouched(entries + more, disk, p) || disk.files[p].stamp >= since
    {
      var g :| g in done + {f} && Under(g, p);
      assert g in done || g in {f};
    }
  }

  lemma StillWalked(before: Disk, was: nat, disk: Disk, folders: set<string>, entries: set<Entry>, since: nat)
    requires since <= was && Evolved(before, was, disk) && Walked(entries, before, folders, since)
    ensures Walked(entries, disk, folders, since)
  {
    hide UnderAny;
  }

  /** The snapshot holds every file of its folders as it is now, but for those written since. */
  ghost predicate Current(layout: Layout, r: Registry, disk: Disk, since: nat) {
    forall p :: p in disk.files && disk.files[p].stamp < since ==>
      && (UnderAny(r.folders, p) ==> p in r.contents && r.contents[p] == disk.files[p].content)
      && (UnderAny(layout.configFolders, p) ==> p in r.config && r.config[p] == disk.files[p].content)
  }

  lemma WalkedIsCurrent(layout: Layout, disk: Disk, clock: nat, r: Registry, fp: set<Entry>, since: nat)
    requires KeptOk(layout, disk, clock, r, fp) && Walked(fp, disk, r.folders, since)
    ensures Current(layout, r, disk, since)
  {
    forall p | p in disk.files && disk.files[p].stamp < since
      ensures UnderAny(r.folders, p) ==> p in r.contents && r.contents[p] == disk.files[p].content
      ensures UnderAny(layout.configFolders, p) ==> p in r.config && r.config[p] == disk.files[p].content
    {
      if UnderAny(layout.configFolders, p) {
        var g :| g in layout.configFolders && Under(g, p);
        assert g in r.folders && ReadAt(fp, disk, r.config, p);
      }
      if UnderAny(r.folders, p) { assert ReadAt(fp, disk, r.contents, p); }
    }
  }

  function Everything(disk: Disk): set<Entry> {
    set p | p in disk.files :: FileEntry(p, disk.files[p].stamp)
  }

  /** What was read seeing more was read seeing less; and a build that saw the whole disk of `since`
      holds what is older than that as it is. */
  lemma BuiltIsCurrent(layout: Layout, first: Disk, since: nat, disk: Disk, clock: nat, r: Registry, seen: set<Entry>)
    requires Evolved(first, since, disk) && Before(seen, clock)
    requires KeptOk(layout, disk, clock, r, seen + Everything(first))
    ensures KeptOk(layout, disk, clock, r, seen) && Current(layout, r, disk, since)
  {
    var all := seen + Everything(first);
    forall folders, read | Stable(all, disk, folders, read) ensures Stable(seen, disk, folders, read) {
      forall p | UnderAny(folders, p) ensures ReadAt(seen, disk, read, p) { assert ReadAt(all, disk, read, p); }
    }
    WalkedIsCurrent(layout, disk, clock, r, all, since);
  }

  lemma EvolvedOn(first: Disk, since: nat, middle: Disk, was: nat, disk: Disk)
    requires Evolved(first, since, middle) && since <= was && Evolved(middle, was, disk)
    ensures Evolved(first, since, disk)
  {
  }

  lemma CurrentEarlier(layout: Layout, r: Registry, disk: Disk, since: nat, earlier: nat)
    requires Current(layout, r, disk, since) && earlier <= since
    ensures Current(layout, r, disk, earlier)
  {
    hide UnderAny;
  }

  // ---------- Snapshots, memos and typed objects ----------

  /** An `IndexSnapshot`, told apart by identity. */
  class Snapshot {
    const registry: Registry
    constructor (registry: Registry)
      ensures this.registry == registry
    {
      this.registry := registry;
    }
  }

  datatype Kept = Kept(snapshot: Snapshot, fingerprint: set<Entry>)

  /** What another process does to the disk. */
  datatype Op =
    | Write(path: string, content: string)
    | Remove(path: string)
    | AddFolder(folder: string)
    | RemoveFolder(folder: string)

  /** One process: the disk it shares, `IndexManager`'s class fields and the registry's fields. */
  class Process {
    // The disk, and the stamp the next write gets.
    var disk: Disk
    var clock: nat
    // The environment `retention_key` reads.
    var key: Key
    const layouts: Key -> Layout
    // How the chaining graph, the flat index and the typed objects follow from a snapshot.
    const chains: Registry -> string
    const flat: Registry -> string
    const objects: Registry -> string

    var cache: Snapshot?
    // The host's snapshots, and whether this command may use them (`_retained` is not `None`).
    var snapshots: map<Key, Kept>
    var retaining: bool
    var flatCache: Option<string>
    var flatCacheIndex: Snapshot?
    var chainCache: Option<string>
    var chainCacheIndex: Snapshot?

    var index: Snapshot?
    var typed: Option<string>    // the typed objects, once loaded
    var initialised: bool

    ghost predicate DiskOk() reads this`disk, this`clock {
      forall p :: p in disk.files ==> disk.files[p].stamp < clock
    }

    ghost predicate SnapshotKept(k: Key, kept: Kept) reads this`disk, this`clock {
      var r := kept.snapshot.registry;
      && KeptOk(layouts(k), disk, clock, r, kept.fingerprint)
      && (forall p :: p in r.config ==> UnderAny(layouts(k).configFolders, p))
      && (forall p :: p in r.contents ==> UnderAny(r.folders, p))
    }

    ghost predicate RetainedOk() reads this`disk, this`clock, this`snapshots {
      forall k :: k in snapshots ==> SnapshotKept(k, snapshots[k])
    }

    ghost predicate MemosOk() reads this`flatCache, this`flatCacheIndex, this`chainCache, this`chainCacheIndex {
      && (flatCache.Some? && flatCacheIndex != null ==> flatCache.value == flat(flatCacheIndex.registry))
      && (chainCache.Some? && chainCacheIndex != null ==> chainCache.value == chains(chainCacheIndex.registry))
    }

    ghost predicate TypedOk() reads this`typed, this`index {
      typed.Some? ==> index != null && typed.value == objects(index.registry)
    }

    ghost predicate Valid() reads this {
      DiskOk() && RetainedOk() && MemosOk() && TypedOk() && (initialised ==> index != null)
    }

    constructor (layouts: Key -> Layout, chains: Registry -> string, flat: Registry -> string,
                 objects: Registry -> string)
      ensures Valid() && cache == null && snapshots == map[] && index == null
    {
      this.layouts, this.chains, this.flat, this.objects := layouts, chains, flat, objects;
      disk, clock := Disk(map[], {}), 0;
      cache, snapshots, retaining := null, map[], false;
      index, typed, initialised := null, None, false;
      flatCache, flatCacheIndex, chainCache, chainCacheIndex := None, null, None, null;
    }

    /** One change by another process. Every change moves the clock, so a still clock is a still disk. */
    method Change(op: Op)
      requires Valid()
      modifies this`disk, this`clock
      ensures Valid() && clock > old(clock) && Evolved(old(disk), old(clock), disk)
    {
      ghost var before := disk;
      match op {
        case Write(path, content) => disk := disk.(files := disk.files[path := File(clock, content)]);
        case Remove(path) => disk := disk.(files := disk.files - {path});
        case AddFolder(folder) => disk := disk.(folders := disk.folders + {folder});
        case RemoveFolder(folder) => disk := disk.(folders := disk.folders - {folder});
      }
      clock := clock + 1;
    }

    /** Any number of changes by other processes, between two steps of this one. */
    method Others()
      requires Valid()
      modifies this`disk, this`clock
      ensures Valid() && clock >= old(clock) && Evolved(old(disk), old(clock), disk)
      ensures clock == old(clock) ==> disk == old(disk)
    {
      var n: nat := *;
      while n > 0
        invariant Valid() && clock >= old(clock) && Evolved(old(disk), old(clock), disk)
        invariant clock == old(clock) ==> disk == old(disk)
      {
        var op: Op := *;
        Change(op);
        n := n - 1;
      }
    }

    /** Reading every file under one folder: list it, then open the files one by one. A file gone
        by then is not read. */
    method ReadFolder(folder: string, ghost fp: set<Entry>) returns (read: map<string, string>)
      requires Valid() && Before(fp, clock)
      modifies this`disk, this`clock
      ensures Valid() && clock >= old(clock) && Evolved(old(disk), old(clock), disk)
      ensures clock == old(clock) ==> disk == old(disk) && read == FilesUnder(disk, {folder})
      ensures Stable(fp, disk, {folder}, read)
      ensures forall p :: p in read ==> Under(folder, p)
    {
      hide RetainedOk, MemosOk, TypedOk, Evolved, Under, ReadAt, RestStable, ReadSoFar;
      Others();
      read := map[];
      var names := Listing(disk, folder);
      ghost var listed := clock;
      NothingRead(fp, disk, folder);
      while names != {}
        invariant Valid() && clock >= listed >= old(clock) && Evolved(old(disk), old(clock), disk)
        invariant forall p :: p in names || p in read ==> Under(folder, p)
        invariant Before(fp, clock) && RestStable(fp, disk, folder, names, read)
        invariant clock == old(clock) ==> disk == old(disk) && ReadSoFar(disk, folder, names, read)
        decreases names
      {
        var p :| p in names;
        ghost var before, was, sofar := disk, clock, read;
        Others();
        if p in disk.files { read := read[p := disk.files[p].content]; }
        OneMoreRead(fp, old(disk), old(clock), before, was, disk, clock, folder, names, sofar, p, read);
        names := names - {p};
      }
      AllRead(fp, disk, folder, read);
    }

    /** Reading every file under several folders, in any order. */
    method ReadAll(folders: set<string>, ghost fp: set<Entry>) returns (read: map<string, string>)
      requires Valid() && Before(fp, clock)
      modifies this`disk, this`clock
      ensures Valid() && clock >= old(clock) && Evolved(old(disk), old(clock), disk)
      ensures clock == old(clock) ==> disk == old(disk) && read == FilesUnder(disk, folders)
      ensures Stable(fp, disk, folders, read)
      ensures forall p :: p in read ==> UnderAny(folders, p)
    {
      read := map[];
      var rest, done := folders, {};
      while rest != {}
        invariant Valid() && clock >= old(clock) && Evolved(old(disk), old(clock), disk)
        invariant done + rest == folders
        invariant Stable(fp, disk, done, read)
        invariant forall p :: p in read ==> UnderAny(done, p)
        invariant clock == old(clock) ==> disk == old(disk) && read == FilesUnder(disk, done)
        decreases rest
      {
        var f :| f in rest;
        ghost var before, was, sofar := disk, clock, read;
        var more := ReadFolder(f, fp);
        StillStable(fp, before, was, disk, done, sofar);
        ReadMore(fp, disk, done, f, sofar, more);
        read := read + more;
        rest, done := rest - {f}, done + {f};
      }
    }

    /** `_walk`: list one folder, then look at its files one by one, beside writers. */
    method Walk(folder: string, ghost first: Disk, ghost since: nat) returns (entries: set<Entry>)
      requires Valid() && since <= clock && Evolved(first, since, disk)
      modifies this`disk, this`clock
      ensures Valid() && clock >= old(clock) && Evolved(old(disk), old(clock), disk) && Evolved(first, since, disk)
      ensures Walked(entries, disk, {folder}, since) && Real(entries, first, since) && Before(entries, clock)
      ensures clock == old(clock) ==> disk == old(disk) && entries == Fingerprint(disk, {folder})
    {
      hide RetainedOk, MemosOk, TypedOk, Under, RestWalked, Walked, WalkedSoFar, Real, Fingerprint;
      Others();
      entries := FolderEntries(disk, folder);
      var names := Listing(disk, folder);
      NothingWalked(disk, folder, since);
      assert Real(entries, first, since) by { OnlyFolders(disk, folder, first, since); }
      while names != {}
        invariant Valid() && clock >= old(clock) && Evolved(old(disk), old(clock), disk) && Evolved(first, since, disk)
        invariant Before(entries, clock) && RestWalked(entries, disk, folder, names, since)
                  && Real(entries, first, since)
        invariant clock == old(clock) ==> disk == old(disk) && WalkedSoFar(disk, folder, names, entries)
        decreases names
      {
        var p :| p in names;
        ghost var before, was, sofar := disk, clock, entries;
        Others();
        if p in disk.files { entries := entries + {FileEntry(p, disk.files[p].stamp)}; }
        OneMoreWalked(first, since, before, was, disk, folder, names, sofar, p, entries);
        names := names - {p};
      }
      AllWalked(disk, folder, entries, since);
    }

    /** `_fingerprint`: the entries of every folder. */
    method TakeFingerprint(folders: set<string>) returns (fp: set<Entry>)
      requires Valid()
      modifies this`disk, this`clock
      ensures Valid() && clock >= old(clock) && Evolved(old(disk), old(clock), disk) && Before(fp, clock)
      ensures Walked(fp, disk, folders, old(clock)) && Real(fp, old(disk), old(clock))
      ensures clock == old(clock) ==> disk == old(disk) && fp == Fingerprint(disk, folders)
    {
      hide RetainedOk, MemosOk, TypedOk, Under, Fingerprint;
      fp := {};
      var rest, done := folders, {};
      NoFolder(disk);
      while rest != {}
        invariant Valid() && clock >= old(clock) && Evolved(old(disk), old(clock), disk) && Before(fp, clock)
        invariant done + rest == folders
        invariant Walked(fp, disk, done, old(clock)) && Real(fp, old(disk), old(clock))
        invariant clock == old(clock) ==> disk == old(disk) && fp == Fingerprint(disk, done)
        decreases rest
      {
        hide Walked, Real;
        var f :| f in rest;
        ghost var before, was := disk, clock;
        var more := Walk(f, old(disk), old(clock));
        StillWalked(before, was, disk, done, fp, old(clock));
        MoreWalked(disk, done, f, fp, more, old(clock));
        BothReal(fp, more, old(disk), old(clock));
        FingerprintMore(disk, done, f);
        fp := fp + more;
        rest, done := rest - {f}, done + {f};
      }
    }

    /** `_fingerprint_before_build`: resolve the folders from the configuration as it is now, and
        walk them; `None` when the configuration does not validate. */
    method FingerprintBeforeBuild() returns (fp: Option<set<Entry>>)
      requires Valid()
      modifies this`disk, this`clock
      ensures Valid() && clock >= old(clock) && Evolved(old(disk), old(clock), disk)
      ensures fp.Some? ==> Before(fp.value, clock)
      ensures clock == old(clock) ==>
                disk == old(disk)
                && fp == match FreshBuild(layouts(key), disk)
                         case None => None
                         case Some(r) => Some(Fingerprint(disk, r.folders))
    {
      var config := ReadAll(layouts(key).configFolders, {});
      match ReadFolders(layouts(key), config) {
        case None => fp := None;
        case Some(folders) =>
          ghost var before, was := disk, clock;
          var taken := TakeFingerprint(folders);
          fp := Some(taken);
      }
    }

    /** `build_registry`, with its own reading of the configuration. `seen` is the fingerprint that
        was taken before it, if one was. */
    method Build(ghost seen: set<Entry>) returns (r: Option<Registry>)
      requires Valid() && Before(seen, clock)
      modifies this`disk, this`clock
      ensures Valid() && clock >= old(clock) && Evolved(old(disk), old(clock), disk)
      ensures clock == old(clock) ==> disk == old(disk) && r == FreshBuild(layouts(key), disk)
      ensures r.Some? ==>
                && KeptOk(layouts(key), disk, clock, r.value, seen)
                && Current(layouts(key), r.value, disk, old(clock))
                && (forall p :: p in r.value.config ==> UnderAny(layouts(key).configFolders, p))
                && (forall p :: p in r.value.contents ==> UnderAny(r.value.folders, p))
    {
      ghost var first, since := disk, clock;
      ghost var all := seen + Everything(first);
      var config := ReadAll(layouts(key).configFolders, all);
      match ReadFolders(layouts(key), config) {
        case None => r := None;
        case Some(folders) =>
          ghost var before, was := disk, clock;
          var contents := ReadAll(folders, all);
          StillStable(all, before, was, disk, layouts(key).configFolders, config);
          r := Some(Registry(config, folders, contents));
          assert Before(seen, clock) && Before(all, clock);
          BuiltIsCurrent(layouts(key), first, since, disk, clock, r.value, seen);
      }
    }

    /** The files a kept snapshot was built from look now as they did before its build. */
    ghost predicate Unchanged(kept: Kept) reads this`disk {
      Fingerprint(disk, kept.snapshot.registry.folders) == kept.fingerprint
    }

    /** The part of `load` that builds: fingerprint first, so that a file written while the build
        runs makes the next run's fingerprint differ. */
    method BuildAndKeep() returns (s: Snapshot?)
      requires Valid() && cache == null
      modifies this`disk, this`clock, this`cache, this`snapshots
      ensures Valid() && clock >= old(clock) && cache == s && Evolved(old(disk), old(clock), disk)
      ensures s != null ==> Current(layouts(key), s.registry, disk, old(clock))
      ensures snapshots - {key} == old(snapshots) - {key} && (s == null || !retaining ==> snapshots == old(snapshots))
      ensures clock == old(clock) ==>
                && disk == old(disk)
                && FreshBuild(layouts(key), disk) == (if s == null then None else Some(s.registry))
                && (retaining && s != null ==> KeptForNow(s))
    {
      hide FreshBuild, Fingerprint, KeptOk, MemosOk, TypedOk;
      var fp := None;
      if retaining { fp := FingerprintBeforeBuild(); }
      ghost var seen := if fp.Some? then fp.value else {};
      ghost var since := clock;
      var r := Build(seen);
      if r.None? { return null; }
      CurrentEarlier(layouts(key), r.value, disk, since, old(clock));
      s := new Snapshot(r.value);
      cache := s;
      if retaining && fp.Some? {
        snapshots := snapshots[key := Kept(s, fp.value)];
        assert SnapshotKept(key, snapshots[key]);
        if clock == old(clock) {
          assert fp.value == Fingerprint(disk, r.value.folders);
          ReusedIsFreshIff(layouts(key), disk, clock, r.value, fp.value);
          assert Unchanged(snapshots[key]);
          assert KeptForNow(s);
        }
      }
    }

    /** The snapshot just built is kept, and the next load on the same disk will reuse it rightly. */
    ghost predicate KeptForNow(s: Snapshot) reads this {
      && key in snapshots && snapshots[key].snapshot == s && Unchanged(snapshots[key])
      && PathsRead(s.registry) <= PathsIn(snapshots[key].fingerprint)
    }

    /** The part of `load` that takes the kept snapshot out, walks its folders, and puts it back if
        they look the same. */
    method Reuse() returns (s: Snapshot?)
      requires Valid() && cache == null && retaining && key in snapshots
      modifies this`disk, this`clock, this`cache, this`snapshots
      ensures Valid() && cache == s && clock >= old(clock) && Evolved(old(disk), old(clock), disk)
      ensures s != null ==>
                && s == old(snapshots)[key].snapshot
                && Current(layouts(key), s.registry, disk, old(clock))
                && Real(old(snapshots)[key].fingerprint, old(disk), old(clock))
      ensures snapshots == if s != null then old(snapshots) else old(snapshots) - {key}
      ensures clock == old(clock) ==>
                && disk == old(disk)
                && (s != null <==> old(Unchanged(snapshots[key])))
                && (s != null ==>
                      (FreshBuild(layouts(key), disk) == Some(s.registry)
                       <==> PathsRead(s.registry) <= PathsIn(old(snapshots)[key].fingerprint)))
    {
      hide FreshBuild, Fingerprint, MemosOk, TypedOk, KeptOk, Walked, Real, Current, Evolved, PathsRead, PathsIn, Before;
      var kept := snapshots[key];
      var now := TakeFingerprint(kept.snapshot.registry.folders);
      assert key in snapshots && snapshots[key] == kept;
      assert RetainedOk() && SnapshotKept(key, snapshots[key]);
      snapshots := snapshots - {key};
      if now != kept.fingerprint { return null; }
      WalkedIsCurrent(layouts(key), disk, clock, kept.snapshot.registry, kept.fingerprint, old(clock));
      if clock == old(clock) {
        ReusedIsFreshIff(layouts(key), disk, clock, kept.snapshot.registry, kept.fingerprint);
      }
      snapshots := snapshots[key := kept];
      cache := kept.snapshot;
      return cache;
    }

    /** `IndexManager.load`; `null` when the build raises. `reused` says whether a kept snapshot was. */
    method Load() returns (s: Snapshot?, ghost reused: bool)
      requires Valid()
      modifies this`disk, this`clock, this`cache, this`snapshots
      ensures Valid() && clock >= old(clock) && cache == s && Evolved(old(disk), old(clock), disk)
      ensures old(cache) != null ==>
                s == old(cache) && !reused && clock == old(clock) && disk == old(disk) && snapshots == old(snapshots)
      // Reused or built, a snapshot holds every file as it is now, but for those written since the
      // load began; and every file of a reused one's fingerprint was there then, as before its build.
      ensures old(cache) == null && s != null ==> Current(layouts(key), s.registry, disk, old(clock))
      ensures reused ==>
                && retaining && key in old(snapshots) && s == old(snapshots)[key].snapshot
                && snapshots == old(snapshots)
                && Real(old(snapshots)[key].fingerprint, old(disk), old(clock))
      ensures snapshots - {key} == old(snapshots) - {key} && (!retaining ==> snapshots == old(snapshots))
      // On a still disk it is what a build would return exactly when its build saw no phantom file;
      // there is reuse whenever the files are unchanged, else exactly a fresh build, which is kept
      // under a fingerprint that the next load will find unchanged.
      ensures old(cache) == null && clock == old(clock) ==>
                && disk == old(disk)
                && (reused <==> retaining && key in old(snapshots) && old(Unchanged(snapshots[key])))
                && (reused ==>
                      (FreshBuild(layouts(key), disk) == Some(s.registry)
                       <==> PathsRead(s.registry) <= PathsIn(old(snapshots)[key].fingerprint)))
                && (!reused ==> FreshBuild(layouts(key), disk) == if s == null then None else Some(s.registry))
                && (!reused && retaining && s != null ==> KeptForNow(s))
    {
      hide FreshBuild, Fingerprint, MemosOk, TypedOk, KeptForNow, KeptOk, Real, Current, Unchanged;
      reused := false;
      if cache != null { return cache, false; }
      if retaining && key in snapshots {
        s := Reuse();
        if s != null { return s, true; }
      }
      ghost var middle, since := disk, clock;
      s := BuildAndKeep();
      EvolvedOn(old(disk), old(clock), middle, since, disk);
      if s != null { CurrentEarlier(layouts(key), s.registry, disk, since, old(clock)); }
    }

    /** `IndexManager._cache = None`: the metaclass drops the four memo fields with the snapshot. */
    method DropCache()
      requires Valid()
      modifies this`cache, this`flatCache, this`flatCacheIndex, this`chainCache, this`chainCacheIndex
      ensures Valid() && cache == null
      ensures flatCache == None && flatCacheIndex == null && chainCache == None && chainCacheIndex == null
    {
      cache := null;
      flatCache, flatCacheIndex, chainCache, chainCacheIndex := None, null, None, null;
    }

    /** The host switches command, working directory or environment. */
    method Switch(key: Key, retaining: bool)
      requires Valid()
      modifies this`key, this`retaining
      ensures Valid() && this.key == key && this.retaining == retaining
    {
      this.key, this.retaining := key, retaining;
    }

    /** `_ModelsAccessor.chaining`, on the accessor's own snapshot. */
    method Chaining(accessor: Snapshot) returns (v: string)
      requires Valid()
      modifies this`chainCache, this`chainCacheIndex
      ensures Valid() && v == chains(accessor.registry) && chainCache == Some(v) && chainCacheIndex == accessor
    {
      if chainCacheIndex == accessor && chainCache.Some? { return chainCache.value; }
      v := chains(accessor.registry);
      chainCache, chainCacheIndex := Some(v), accessor;
    }

    /** `_ModelsAccessor.FlatIndex`. */
    method FlatIndex(accessor: Snapshot) returns (v: string)
      requires Valid()
      modifies this`flatCache, this`flatCacheIndex
      ensures Valid() && v == flat(accessor.registry) && flatCache == Some(v) && flatCacheIndex == accessor
    {
      if flatCacheIndex == accessor && flatCache.Some? { return flatCache.value; }
      v := flat(accessor.registry);
      flatCache, flatCacheIndex := Some(v), accessor;
    }

    /** `OpentideRegistry.initialise`; false when the build raises. */
    method Initialise() returns (ok: bool)
      requires Valid()
      modifies this
      ensures Valid() && SameHost(old(key), old(retaining))
      ensures clock >= old(clock) && Evolved(old(disk), old(clock), disk)
      ensures ok ==> initialised && index == cache
      ensures old(cache) != null ==> ok && index == old(cache)
      ensures old(cache) == null && ok ==> Current(layouts(key), index.registry, disk, old(clock))
      ensures !ok ==> index == old(index) && typed == old(typed) && initialised == old(initialised)
      ensures old(index) == index ==> typed == old(typed)
    {
      hide FreshBuild, Fingerprint, KeptForNow, RetainedOk, DiskOk, MemosOk, PathsRead, PathsIn, Unchanged, Current;
      var loaded, _ := Load();
      if loaded == null { return false; }
      if index != null && loaded != index { typed := None; }
      index, initialised := loaded, true;
      return true;
    }

    ghost predicate SameHost(key: Key, retaining: bool) reads this`key, this`retaining {
      this.key == key && this.retaining == retaining
    }

    /** `OpentideRegistry.reload`; false when the build raises. Whatever was loaded before, the index
        holds every file as it is now, but for those written since the reload began. */
    method Reload() returns (ok: bool)
      requires Valid()
      modifies this
      ensures Valid() && SameHost(old(key), old(retaining))
      ensures clock >= old(clock) && Evolved(old(disk), old(clock), disk)
      ensures flatCache == None && flatCacheIndex == null && chainCache == None && chainCacheIndex == null
      ensures ok ==>
                && initialised && index == cache && typed == None
                && Current(layouts(key), index.registry, disk, old(clock))
      ensures !ok ==> index == old(index) && typed == old(typed) && initialised == old(initialised) && cache == null
      // On a still disk it is a fresh build, unless a kept snapshot looks unchanged whose build saw
      // a phantom file.
      ensures clock == old(clock) ==>
                var reused := retaining && key in old(snapshots) && old(Unchanged(snapshots[key]));
                && disk == old(disk)
                && (ok <==> reused || FreshBuild(layouts(key), disk).Some?)
                && (ok && reused ==> index == old(snapshots)[key].snapshot)
                && (ok ==>
                      (FreshBuild(layouts(key), disk) == Some(index.registry)
                       <==> reused ==> PathsRead(index.registry) <= PathsIn(old(snapshots)[key].fingerprint)))
    {
      hide FreshBuild, Fingerprint, KeptForNow, RetainedOk, DiskOk, MemosOk, PathsRead, PathsIn, Current;
      DropCache();
      var loaded, _ := Load();
      if loaded == null { return false; }
      var again, _ := Load();
      index := again;
      typed, initialised := None, true;
      return true;
    }

    /** `OpentideRegistry.Rules`: the typed objects, loaded from the index the registry has now. */
    method Rules() returns (v: Option<string>)
      requires Valid()
      modifies this
      ensures Valid() && SameHost(old(key), old(retaining))
      ensures v.Some? ==> index != null && v.value == objects(index.registry) && typed == v
      ensures old(initialised) && old(index) != null ==> v.Some? && index == old(index)
      ensures !(old(initialised) && old(index) != null) && v.Some? ==>
                if old(cache) != null then index == old(cache)
                else Current(layouts(key), index.registry, disk, old(clock))
    {
      hide Current, RetainedOk, DiskOk, MemosOk;
      if !initialised || index == null {
        var ok := Initialise();
        if !ok { return None; }
      }
      if typed.None? { typed := Some(objects(index.registry)); }
      return typed;
    }
  }

  lemma ReadMore(fp: set<Entry>, disk: Disk, done: set<string>, f: string, read: map<string, string>,
                 more: map<string, string>)
    requires Stable(fp, disk, done, read) && Stable(fp, disk, {f}, more)
    requires forall p :: p in read ==> UnderAny(done, p)
    requires forall p :: p in more ==> Under(f, p)
    ensures Stable(fp, disk, done + {f}, read + more)
    ensures forall p :: p in read + more ==> UnderAny(done + {f}, p)
    ensures read == FilesUnder(disk, done) && more == FilesUnder(disk, {f})
            ==> read + more == FilesUnder(disk, done + {f})
  {
    forall p ensures UnderAny(done + {f}, p) <==> UnderAny(done, p) || Under(f, p) {
      if Under(f, p) { assert f in done + {f}; }
      if UnderAny(done, p) {
        var g :| g in done && Under(g, p);
        assert g in done + {f};
      }
    }
    forall p | UnderAny(done + {f}, p) ensures ReadAt(fp, disk, read + more, p) {
      if Under(f, p) {
        assert f in {f} && UnderAny({f}, p);
        assert ReadAt(fp, disk, more, p);
      } else {
        assert ReadAt(fp, disk, read, p);
      }
    }
  }

  lemma NoFolder(disk: Disk)
    ensures Fingerprint(disk, {}) == {}
  {
  }

  lemma OnlyFolders(disk: Disk, folder: string, first: Disk, since: nat)
    ensures Real(FolderEntries(disk, folder), first, since)
  {
  }

  lemma BothReal(a: set<Entry>, b: set<Entry>, disk: Disk, since: nat)
    requires Real(a, disk, since) && Real(b, disk, since)
    ensures Real(a + b, disk, since)
  {
  }

  lemma FingerprintMore(disk: Disk, done: set<string>, f: string)
    ensures Fingerprint(disk, done) + Fingerprint(disk, {f}) == Fingerprint(disk, done + {f})
  {
    forall p ensures UnderAny(done + {f}, p) <==> UnderAny(done, p) || UnderAny({f}, p) {
      if UnderAny({f}, p) { assert f in done + {f}; }
      if UnderAny(done, p) {
        var g :| g in done && Under(g, p);
        assert g in done + {f};
      }
      if UnderAny(done + {f}, p) {
        var g :| g in done + {f} && Under(g, p);
        assert g in done || g in {f};
      }
    }
  }
}
