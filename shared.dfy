/** `SharedSourceDirectory`: where the shared directory lives, when `prepare`
    rebuilds it, and the rebuild itself: clear, merge, write the manifest. */
module SharedSource {
  import opened Text
  import opened Outcomes
  import opened Paths
  import opened FileTree
  import opened PathMerge
  import opened Links
  import opened Clearing
  import Os

  /** `SharedSourceDirectory(source_directories, isolate)`. The source
      directories are the set the constructor builds, listed in the order in
      which iterating over that set yields them. */
  datatype SharedSourceDirectory = SharedSourceDirectory(sourceDirectories: seq<string>, isolate: bool)

  /** The set of source directories, as the manifest records it. */
  function Tracked(d: SharedSourceDirectory): set<string>
  {
    set x | x in d.sourceDirectories
  }

  /** The suffix `get_root` appends: `_` and the process id when isolated. */
  function Suffix(d: SharedSourceDirectory, pid: nat): string
  {
    if d.isolate then "_" + NatToString(pid) else ""
  }

  /** `get_root()`, relative to the working directory. */
  function GetRoot(d: SharedSourceDirectory, pid: nat): string
  {
    ".pyre/shared_source_directory" + Suffix(d, pid)
  }

  /** Isolated directories of different processes never share a root; without
      isolation every process uses the same one. */
  lemma RootsOfProcesses(d: SharedSourceDirectory, pid1: nat, pid2: nat)
    ensures d.isolate ==> (GetRoot(d, pid1) == GetRoot(d, pid2) <==> pid1 == pid2)
    ensures !d.isolate ==> GetRoot(d, pid1) == GetRoot(d, pid2)
  {
    if d.isolate && GetRoot(d, pid1) == GetRoot(d, pid2) {
      var base := ".pyre/shared_source_directory";
      SamePrefix(base, Suffix(d, pid1), Suffix(d, pid2));
      SamePrefix("_", NatToString(pid1), NatToString(pid2));
      NatToStringInjective(pid1, pid2);
    }
  }

  lemma SamePrefix(a: string, x: string, y: string)
    requires a + x == a + y
    ensures x == y
  {
    assert (a + x)[|a|..] == x;
    assert (a + y)[|a|..] == y;
  }

  /** The last component of the root. */
  function RootName(d: SharedSourceDirectory, pid: nat): Name
  {
    "shared_source_directory" + Suffix(d, pid)
  }

  /** The shared directory as a path: two components below the working directory. */
  function RootPath(d: SharedSourceDirectory, cwd: Path, pid: nat): (root: Path)
    requires IsNormal(cwd)
    ensures IsNormal(root) && |root| == |cwd| + 2 && Below(cwd, root)
  {
    RootNameProper(d, pid);
    cwd + [".pyre", RootName(d, pid)]
  }

  lemma RootNameProper(d: SharedSourceDirectory, pid: nat)
    ensures ProperName(RootName(d, pid)) && ProperName(".pyre")
  {
    var name := RootName(d, pid);
    var base := "shared_source_directory";
    assert |base| == 23 && '/' !in base;
    assert name[0] == 's';
    if d.isolate {
      var digits := NatToString(pid);
      assert name == base + ("_" + digits);
      forall i | 0 <= i < |name| ensures name[i] != '/' {
        if i >= 24 { assert name[i] == digits[i - 24]; }
      }
    } else {
      assert name == base;
    }
  }

  /** `get_root()` is the two components joined by `/`. */
  lemma GetRootJoins(d: SharedSourceDirectory, pid: nat)
    ensures GetRoot(d, pid) == JoinWith([".pyre", RootName(d, pid)], '/')
  {
    var parts := [".pyre", RootName(d, pid)];
    assert parts[1..] == [RootName(d, pid)];
    calc {
      JoinWith(parts, '/');
      ".pyre" + ['/'] + JoinWith([RootName(d, pid)], '/');
      ".pyre" + "/" + ("shared_source_directory" + Suffix(d, pid));
      (".pyre" + "/" + "shared_source_directory") + Suffix(d, pid);
      { assert ".pyre" + "/" + "shared_source_directory" == ".pyre/shared_source_directory"; }
      ".pyre/shared_source_directory" + Suffix(d, pid);
    }
  }

  /** `os.path.abspath(get_root())` is `RootPath`. */
  lemma GetRootResolves(d: SharedSourceDirectory, cwd: Path, pid: nat)
    requires IsNormal(cwd)
    ensures AbsPath(cwd, GetRoot(d, pid)) == RootPath(d, cwd, pid)
  {
    RootNameProper(d, pid);
    GetRootJoins(d, pid);
    AbsPathJoin(cwd, [".pyre", RootName(d, pid)]);
  }

  function LockPath(root: Path): Path
  {
    root + [".pyre.lock"]
  }

  function ManifestPath(root: Path): Path
  {
    root + [".pyre.source_directories"]
  }

  /** The lock and the manifest are reserved names, which `_clear` keeps. */
  lemma ReservedFiles(root: Path)
    ensures LockPath(root)[|root|] == ".pyre.lock" && Reserved(".pyre.lock")
    ensures ManifestPath(root)[|root|] == ".pyre.source_directories" && Reserved(".pyre.source_directories")
    ensures Below(root, LockPath(root)) && Below(root, ManifestPath(root))
  {
    assert ".pyre.lock"[..5] == ".pyre";
    assert ".pyre.source_directories"[..5] == ".pyre";
    assert LockPath(root)[..|root|] == root;
    assert ManifestPath(root)[..|root|] == root;
  }

  /** The staleness test: every requested directory is tracked already. */
  predicate IsUpToDate(d: SharedSourceDirectory, tracked: set<string>)
  {
    Tracked(d) <= tracked
  }

  /** What `prepare` left: the tree, the exception it raised if any, and
      whether it rebuilt the directory. */
  datatype Prepared = Prepared(fs: Tree, error: Option<Error>, rebuilt: bool)

  /** What entering the lock did: the tree, and whether the lock file was
      opened (`Ok(true)`), could not be found (`Ok(false)`: the body runs
      without a lock) or failed otherwise (the exception). */
  datatype Acquired = Acquired(fs: Tree, outcome: Result<bool, Error>)

  /** `os.makedirs(root)` with every failure swallowed, then `acquire_lock`'s
      `open(lock, "w+")`, which creates or truncates the lock file. */
  function Acquire(fs: Tree, root: Path): (a: Acquired)
    requires |root| > 0
    ensures a.outcome == Ok(true) <==>
      && root in MakeDirs(fs, root).0 && MakeDirs(fs, root).0[root].Dir?
      && !(LockPath(root) in MakeDirs(fs, root).0 && MakeDirs(fs, root).0[LockPath(root)].Dir?)
    ensures a.outcome == Ok(true) ==> a.fs == MakeDirs(fs, root).0[LockPath(root) := File(0)]
    // only a lock file actually opened changes the tree beyond `makedirs`
    ensures a.outcome != Ok(true) ==> a.fs == MakeDirs(fs, root).0
  {
    var made := MakeDirs(fs, root).0;
    assert Parent(LockPath(root)) == root;
    match Open(made, LockPath(root), File(0))
    case Ok(t) => Acquired(t, Ok(true))
    case Err(ENOENT) => Acquired(made, Ok(false))
    case Err(e) => Acquired(made, Err(OSError(e)))
  }

  /** In a well-formed tree the lock file can always be found once `makedirs`
      has run: either the root is a directory and the lock is opened, or
      `open` fails with an error other than `ENOENT`. The unlocked run of the
      body, which `acquire_lock` allows for, cannot happen here. */
  lemma NoUnlockedRun(fs: Tree, root: Path)
    requires WellFormed(fs) && |root| > 0
    ensures Acquire(fs, root).outcome != Ok(false)
  {
    MakeDirsOutcome(fs, root);
    assert Parent(LockPath(root)) == root;
  }

  /** How an exception raised inside `with acquire_lock(...)` leaves it: while
      the lock file is open, a `FileNotFoundError` is caught by the generator's
      own handler, which yields a second time, and `contextlib` turns that
      into a `RuntimeError`; every other exception passes unchanged. */
  function Release(held: bool, error: Option<Error>): (r: Option<Error>)
    ensures r.None? <==> error.None?
    ensures r != error <==> held && error == Some(OSError(ENOENT))
    ensures r != error ==> r.Some? && r.value.RuntimeError?
  {
    if held && error == Some(OSError(ENOENT)) then Some(RuntimeError("generator didn't stop after throw()"))
    else error
  }

  /** `_merge()`: the dictionary of `_merge_source_directory`, then the links. */
  function MergeResult(fs: Tree, cwd: Path, root: Path, dirs: seq<string>, list: string -> Result<seq<string>, Error>): (r: Effect)
    requires IsNormal(cwd) && IsNormal(root)
    ensures MergeMapping(fs, cwd, dirs, list).Err? ==> r == Effect(fs, Some(MergeMapping(fs, cwd, dirs, list).error))
  {
    match MergeMapping(fs, cwd, dirs, list)
    case Err(e) => Effect(fs, Some(e))
    case Ok(m) => LinkAll(fs, Placements(root, Entries(m)))
  }

  /** The rebuild: `_clear()`, `_merge()`, then the manifest, each step only if
      the one before raised nothing. */
  function Rebuild(d: SharedSourceDirectory, fs: Tree, cwd: Path, root: Path, list: string -> Result<seq<string>, Error>): (r: Prepared)
    requires IsNormal(cwd) && IsNormal(root)
    ensures r.rebuilt
    ensures ClearResult(fs, root).error.Some? ==> r == Prepared(fs, ClearResult(fs, root).error, true)
  {
    var cleared := ClearResult(fs, root);
    if cleared.error.Some? then Prepared(cleared.fs, cleared.error, true)
    else
      var merged := MergeResult(cleared.fs, cwd, root, d.sourceDirectories, list);
      if merged.error.Some? then Prepared(merged.fs, merged.error, true)
      else
        match Open(merged.fs, ManifestPath(root), Manifest(Tracked(d)))
        case Ok(t) => Prepared(t, None, true)
        case Err(e) => Prepared(merged.fs, Some(OSError(e)), true)
  }

  /** The body of `with acquire_lock(...)`: read the manifest; when it lists
      every requested directory, stop; otherwise rebuild. An unreadable
      manifest (a missing file, a directory, no JSON list) counts as stale. */
  function Locked(d: SharedSourceDirectory, fs: Tree, cwd: Path, root: Path, list: string -> Result<seq<string>, Error>): (r: Prepared)
    requires IsNormal(cwd) && IsNormal(root)
    ensures var tracked := ReadManifest(fs, ManifestPath(root));
      !r.rebuilt <==> tracked.Some? && IsUpToDate(d, tracked.value)
    ensures !r.rebuilt ==> r.fs == fs && r.error.None?
  {
    var tracked := ReadManifest(fs, ManifestPath(root));
    if tracked.Some? && IsUpToDate(d, tracked.value) then Prepared(fs, None, false)
    else Rebuild(d, fs, cwd, root, list)
  }

  /** `prepare()` with the shared directory at `root`. */
  function PrepareAt(d: SharedSourceDirectory, fs: Tree, cwd: Path, root: Path, list: string -> Result<seq<string>, Error>): (r: Prepared)
    requires IsNormal(cwd) && IsNormal(root) && |root| > 0
    ensures Acquire(fs, root).outcome.Err? ==> r == Prepared(Acquire(fs, root).fs, Some(Acquire(fs, root).outcome.error), false)
  {
    var a := Acquire(fs, root);
    match a.outcome
    case Err(e) => Prepared(a.fs, Some(e), false)
    case Ok(held) =>
      var r := Locked(d, a.fs, cwd, root, list);
      Prepared(r.fs, Release(held, r.error), r.rebuilt)
  }

  /** `prepare()`. `list` lists a source directory, as `_find_python_paths`
      does (`Lister`). */
  function PrepareResult(d: SharedSourceDirectory, fs: Tree, cwd: Path, pid: nat, list: string -> Result<seq<string>, Error>): Prepared
    requires IsNormal(cwd)
  {
    PrepareAt(d, fs, cwd, RootPath(d, cwd, pid), list)
  }

  // ---- Properties of `prepare` ----

  /** The rebuild is skipped exactly when the manifest can be read and lists
      every requested directory; a skipped `prepare` changes nothing after
      taking the lock and raises nothing; an unreadable manifest always
      means a rebuild. */
  lemma SkipIffUpToDate(d: SharedSourceDirectory, fs: Tree, cwd: Path, root: Path, list: string -> Result<seq<string>, Error>)
    requires IsNormal(cwd) && IsNormal(root) && |root| > 0
    requires Acquire(fs, root).outcome.Ok?
    ensures var a, r := Acquire(fs, root), PrepareAt(d, fs, cwd, root, list);
      var tracked := ReadManifest(a.fs, ManifestPath(root));
      && (!r.rebuilt <==> tracked.Some? && Tracked(d) <= tracked.value)
      && (!r.rebuilt ==> r.fs == a.fs && r.error.None?)
      && (tracked.None? ==> r.rebuilt)
  {
  }

  /** `prepare` keeps the tree well formed whatever happens. */
  lemma {:induction false} PrepareWellFormed(d: SharedSourceDirectory, fs: Tree, cwd: Path, root: Path, list: string -> Result<seq<string>, Error>)
    requires WellFormed(fs) && IsNormal(cwd) && IsNormal(root) && |root| > 0
    ensures WellFormed(Acquire(fs, root).fs)
    ensures WellFormed(PrepareAt(d, fs, cwd, root, list).fs)
  {
    AcquireWellFormed(fs, root);
    var a := Acquire(fs, root);
    if a.outcome.Ok? {
      RebuildWellFormed(d, a.fs, cwd, root, list);
      LockedKeepsOrRebuilds(d, a.fs, cwd, root, list);
      assert PrepareAt(d, fs, cwd, root, list).fs == Locked(d, a.fs, cwd, root, list).fs;
    }
  }

  lemma AcquireWellFormed(fs: Tree, root: Path)
    requires WellFormed(fs) && |root| > 0
    ensures WellFormed(Acquire(fs, root).fs)
  {
    var made := MakeDirs(fs, root).0;
    MakeDirsWellFormed(fs, root);
    if Open(made, LockPath(root), File(0)).Ok? {
      OpenWellFormed(made, LockPath(root), File(0));
    }
  }

  /** Under the lock the tree is either left alone or rebuilt. */
  lemma LockedKeepsOrRebuilds(d: SharedSourceDirectory, fs: Tree, cwd: Path, root: Path, list: string -> Result<seq<string>, Error>)
    requires IsNormal(cwd) && IsNormal(root)
    ensures Locked(d, fs, cwd, root, list).fs == fs || Locked(d, fs, cwd, root, list).fs == Rebuild(d, fs, cwd, root, list).fs
  {
  }

  lemma RebuildWellFormed(d: SharedSourceDirectory, fs: Tree, cwd: Path, root: Path, list: string -> Result<seq<string>, Error>)
    requires WellFormed(fs) && IsNormal(cwd) && IsNormal(root)
    ensures WellFormed(Rebuild(d, fs, cwd, root, list).fs)
  {
    if root in fs && fs[root].Dir? {
      ClearedLeavesReserved(fs, root);
      var cleared := Cleared(fs, root);
      var mapping := MergeMapping(cleared, cwd, d.sourceDirectories, list);
      if mapping.Ok? {
        LinkAllFrame(cleared, Placements(root, Entries(mapping.value)));
      }
      var merged := MergeResult(cleared, cwd, root, d.sourceDirectories, list);
      if Open(merged.fs, ManifestPath(root), Manifest(Tracked(d))).Ok? {
        OpenWellFormed(merged.fs, ManifestPath(root), Manifest(Tracked(d)));
      }
    }
  }

  /** A `prepare` that rebuilt took the lock (or found none) and then ran `Rebuild`. */
  lemma PrepareRebuilt(d: SharedSourceDirectory, fs: Tree, cwd: Path, root: Path, list: string -> Result<seq<string>, Error>)
    requires IsNormal(cwd) && IsNormal(root) && |root| > 0
    requires PrepareAt(d, fs, cwd, root, list).rebuilt
    ensures Acquire(fs, root).outcome.Ok?
    // the manifest, read under the lock, was missing, unreadable or did not
    // cover the request
    ensures var tracked := ReadManifest(Acquire(fs, root).fs, ManifestPath(root));
      !(tracked.Some? && IsUpToDate(d, tracked.value))
    ensures var a, r := Acquire(fs, root), PrepareAt(d, fs, cwd, root, list);
      var b := Rebuild(d, a.fs, cwd, root, list);
      r.fs == b.fs && r.error == Release(a.outcome.value, b.error)
  {
  }

  /** A rebuild that raises nothing found the root a directory, merged without
      an exception and wrote the manifest over the merged tree. */
  lemma RebuildSucceeded(d: SharedSourceDirectory, fs: Tree, cwd: Path, root: Path, list: string -> Result<seq<string>, Error>)
    requires IsNormal(cwd) && IsNormal(root)
    requires Rebuild(d, fs, cwd, root, list).error.None?
    ensures root in fs && fs[root].Dir?
    ensures var merged := MergeResult(Cleared(fs, root), cwd, root, d.sourceDirectories, list);
      && merged.error.None?
      && Rebuild(d, fs, cwd, root, list).fs == merged.fs[ManifestPath(root) := Manifest(Tracked(d))]
  {
  }

  /** A rebuild that raises nothing writes the manifest last, with exactly the
      requested set: reading it back gives that set, whatever it held before. */
  lemma ManifestWrittenLast(d: SharedSourceDirectory, fs: Tree, cwd: Path, root: Path, list: string -> Result<seq<string>, Error>)
    requires WellFormed(fs) && IsNormal(cwd) && IsNormal(root) && |root| > 0
    requires PrepareAt(d, fs, cwd, root, list).rebuilt && PrepareAt(d, fs, cwd, root, list).error.None?
    ensures ReadManifest(PrepareAt(d, fs, cwd, root, list).fs, ManifestPath(root)) == Some(Tracked(d))
  {
    PrepareWellFormed(d, fs, cwd, root, list);
    PrepareRebuilt(d, fs, cwd, root, list);
    var a := Acquire(fs, root);
    RebuildSucceeded(d, a.fs, cwd, root, list);
    ManifestReadBack(PrepareAt(d, fs, cwd, root, list).fs, root, Tracked(d));
  }

  /** A manifest entry in a well-formed tree reads back as what it holds. */
  lemma ManifestReadBack(t: Tree, root: Path, tracked: set<string>)
    requires WellFormed(t) && IsNormal(root)
    requires ManifestPath(root) in t && t[ManifestPath(root)] == Manifest(tracked)
    ensures ReadManifest(t, ManifestPath(root)) == Some(tracked)
  {
    assert IsNormal(ManifestPath(root));
    StatPlain(t, ManifestPath(root));
  }

  /** When `_merge` raises (a source directory `find` cannot list, say), the
      directory is left cleared and the manifest is not rewritten: the old
      manifest entry is still there, so the next `prepare` decides as this
      one did. */
  lemma MergeFailureKeepsManifest(d: SharedSourceDirectory, fs: Tree, cwd: Path, root: Path, list: string -> Result<seq<string>, Error>)
    requires IsNormal(cwd) && IsNormal(root) && |root| > 0
    requires Acquire(fs, root).outcome.Ok?
    requires var a := Acquire(fs, root);
      && root in a.fs && a.fs[root].Dir?
      && !(ReadManifest(a.fs, ManifestPath(root)).Some? && IsUpToDate(d, ReadManifest(a.fs, ManifestPath(root)).value))
      && MergeMapping(Cleared(a.fs, root), cwd, d.sourceDirectories, list).Err?
    ensures var a, r := Acquire(fs, root), PrepareAt(d, fs, cwd, root, list);
      && r.rebuilt
      && r.fs == Cleared(a.fs, root)
      && r.error == Release(a.outcome.value, Some(MergeMapping(Cleared(a.fs, root), cwd, d.sourceDirectories, list).error))
      && (ManifestPath(root) in r.fs <==> ManifestPath(root) in a.fs)
      && (ManifestPath(root) in r.fs ==> r.fs[ManifestPath(root)] == a.fs[ManifestPath(root)])
  {
    ReservedFiles(root);
  }

  /** The keys of the dictionary name distinct paths below the root, none
      inside another and none under a reserved name. */
  ghost predicate KeysFit(root: Path, m: PathMap)
    requires IsNormal(root)
  {
    && (forall k :: k in m.values ==> Below(root, AbsPath(root, k)) && !Reserved(AbsPath(root, k)[|root|]))
    && (forall k1, k2 :: k1 in m.values && k2 in m.values && k1 != k2 ==> !(AbsPath(root, k1) <= AbsPath(root, k2)))
  }

  /** Links equal the dictionary: when the rebuild's dictionary has keys that
      fit, every key's path holds a symlink to its value once `prepare` is
      done, whether or not the manifest could be written. */
  lemma RebuildLinksEqualMapping(d: SharedSourceDirectory, fs: Tree, cwd: Path, root: Path,
                                 list: string -> Result<seq<string>, Error>, m: PathMap)
    requires WellFormed(fs) && IsNormal(cwd) && IsNormal(root) && |root| > 0
    requires Acquire(fs, root).outcome.Ok?
    requires var a := Acquire(fs, root);
      && root in a.fs && a.fs[root].Dir?
      && !(ReadManifest(a.fs, ManifestPath(root)).Some? && IsUpToDate(d, ReadManifest(a.fs, ManifestPath(root)).value))
      && MergeMapping(Cleared(a.fs, root), cwd, d.sourceDirectories, list) == Ok(m)
    requires KeysFit(root, m)
    ensures PrepareAt(d, fs, cwd, root, list).rebuilt
    ensures forall k :: k in m.values ==>
      AbsPath(root, k) in PrepareAt(d, fs, cwd, root, list).fs &&
      PrepareAt(d, fs, cwd, root, list).fs[AbsPath(root, k)] == Symlink(PathString(m.values[k]))
    // and, conversely, below the root nothing but those links and the
    // directories on the way to them is left outside the `.pyre*` names
    ensures OnlyLinksOf(PrepareAt(d, fs, cwd, root, list).fs, root, m)
  {
    PrepareWellFormed(d, fs, cwd, root, list);
    PrepareRebuilt(d, fs, cwd, root, list);
    RebuildLinks(d, Acquire(fs, root).fs, cwd, root, list, m);
    RebuildOnlyLinks(d, Acquire(fs, root).fs, cwd, root, list, m);
  }

  /** Below the root, outside the reserved names, `t` holds only the links of
      `m`, each to its value, and directories on the way to a key's path. */
  ghost predicate OnlyLinksOf(t: Tree, root: Path, m: PathMap)
    requires IsNormal(root)
  {
    forall q :: q in t && Below(root, q) && !Reserved(q[|root|]) ==>
      || (t[q].Dir? && exists k :: k in m.values && q < AbsPath(root, k))
      || (exists k :: k in m.values && q == AbsPath(root, k) && t[q] == Symlink(PathString(m.values[k])))
  }

  /** The rebuild over a tree whose root is a directory leaves nothing
      unreserved below the root but the links of keys that fit. */
  lemma RebuildOnlyLinks(d: SharedSourceDirectory, t: Tree, cwd: Path, root: Path,
                         list: string -> Result<seq<string>, Error>, m: PathMap)
    requires WellFormed(t) && IsNormal(cwd) && IsNormal(root)
    requires root in t && t[root].Dir?
    requires MergeMapping(Cleared(t, root), cwd, d.sourceDirectories, list) == Ok(m)
    requires KeysFit(root, m)
    ensures OnlyLinksOf(Rebuild(d, t, cwd, root, list).fs, root, m)
  {
    ClearedLeavesReserved(t, root);
    RebuildOverLinks(d, t, cwd, root, list, m);
    LinkedOnlyMapping(Cleared(t, root), root, m);
    OnlyLinksSurviveWrite(LinkAll(Cleared(t, root), Placements(root, Entries(m))).fs,
                          Rebuild(d, t, cwd, root, list).fs, root, m, Manifest(Tracked(d)));
  }

  /** Writing the manifest, a reserved name, does not disturb the links. */
  lemma OnlyLinksSurviveWrite(linked: Tree, r: Tree, root: Path, m: PathMap, n: Node)
    requires IsNormal(root) && (r == linked || r == linked[ManifestPath(root) := n])
    requires OnlyLinksOf(linked, root, m)
    ensures OnlyLinksOf(r, root, m)
  {
    ReservedFiles(root);
    forall q | q in r && Below(root, q) && !Reserved(q[|root|])
      ensures q in linked && r[q] == linked[q]
    {
      assert q != ManifestPath(root);
    }
  }

  /** The link loop over the cleared directory adds, outside the reserved
      names, only the links of `m` and the directories on the way to them. */
  lemma LinkedOnlyMapping(cleared: Tree, root: Path, m: PathMap)
    requires WellFormed(cleared) && IsNormal(root) && ValidMap(m)
    requires root in cleared && cleared[root].Dir?
    requires forall q :: q in cleared && Below(root, q) ==> Reserved(q[|root|])
    requires KeysFit(root, m)
    ensures OnlyLinksOf(LinkAll(cleared, Placements(root, Entries(m))).fs, root, m)
  {
    var es := Entries(m);
    var ps := Placements(root, es);
    var linked := LinkAll(cleared, ps).fs;
    LinkAllFrame(cleared, ps);
    KeysLinked(cleared, root, m);
    forall q | q in linked && Below(root, q) && !Reserved(q[|root|])
      ensures || (linked[q].Dir? && exists k :: k in m.values && q < AbsPath(root, k))
              || (exists k :: k in m.values && q == AbsPath(root, k) && linked[q] == Symlink(PathString(m.values[k])))
    {
      assert q !in cleared;
      if linked[q].Dir? && Inside(ps, q) {
        var i :| 0 <= i < |ps| && q < ps[i].at;
        PlacementAt(root, es, i);
        assert es[i].0 in m.values && q < AbsPath(root, es[i].0);
      } else {
        var i :| 0 <= i < |ps| && ps[i].at == q;
        PlacementAt(root, es, i);
        assert es[i].0 in m.values && q == AbsPath(root, es[i].0);
      }
    }
  }

  /** The rebuild over a tree whose root is a directory links every key that fits. */
  lemma RebuildLinks(d: SharedSourceDirectory, t: Tree, cwd: Path, root: Path,
                     list: string -> Result<seq<string>, Error>, m: PathMap)
    requires WellFormed(t) && IsNormal(cwd) && IsNormal(root)
    requires root in t && t[root].Dir?
    requires MergeMapping(Cleared(t, root), cwd, d.sourceDirectories, list) == Ok(m)
    requires KeysFit(root, m)
    ensures forall k :: k in m.values ==>
      AbsPath(root, k) in Rebuild(d, t, cwd, root, list).fs &&
      Rebuild(d, t, cwd, root, list).fs[AbsPath(root, k)] == Symlink(PathString(m.values[k]))
  {
    ClearedLeavesReserved(t, root);
    RebuildOverLinks(d, t, cwd, root, list, m);
    KeysLinked(Cleared(t, root), root, m);
    LinksSurviveWrite(LinkAll(Cleared(t, root), Placements(root, Entries(m))).fs, Rebuild(d, t, cwd, root, list).fs,
                      root, m, ManifestPath(root), Manifest(Tracked(d)));
  }

  /** Links kept apart from `p` survive writing `p`. */
  lemma LinksSurviveWrite(linked: Tree, r: Tree, root: Path, m: PathMap, p: Path, n: Node)
    requires IsNormal(root) && (r == linked || r == linked[p := n])
    requires forall k :: k in m.values ==>
      AbsPath(root, k) in linked && linked[AbsPath(root, k)] == Symlink(PathString(m.values[k])) && AbsPath(root, k) != p
    ensures forall k :: k in m.values ==>
      AbsPath(root, k) in r && r[AbsPath(root, k)] == Symlink(PathString(m.values[k]))
  {
  }

  /** With the root a directory and the merge's dictionary `m`, the rebuild
      leaves the links of `m`, with the manifest written over them or not. */
  lemma RebuildOverLinks(d: SharedSourceDirectory, t: Tree, cwd: Path, root: Path,
                         list: string -> Result<seq<string>, Error>, m: PathMap)
    requires IsNormal(cwd) && IsNormal(root) && root in t && t[root].Dir?
    requires MergeMapping(Cleared(t, root), cwd, d.sourceDirectories, list) == Ok(m)
    ensures ValidMap(m)
    ensures var linked := LinkAll(Cleared(t, root), Placements(root, Entries(m))).fs;
      var r := Rebuild(d, t, cwd, root, list).fs;
      r == linked || r == linked[ManifestPath(root) := Manifest(Tracked(d))]
  {
    RebuildShape(d, t, cwd, root, list);
    MergeLinks(Cleared(t, root), cwd, root, d.sourceDirectories, list, m);
  }

  /** Over a root directory, the rebuild is the merge over the cleared tree,
      followed by the manifest write when the merge raised nothing. */
  lemma RebuildShape(d: SharedSourceDirectory, t: Tree, cwd: Path, root: Path, list: string -> Result<seq<string>, Error>)
    requires IsNormal(cwd) && IsNormal(root) && root in t && t[root].Dir?
    ensures var merged := MergeResult(Cleared(t, root), cwd, root, d.sourceDirectories, list);
      var r := Rebuild(d, t, cwd, root, list).fs;
      r == merged.fs || r == merged.fs[ManifestPath(root) := Manifest(Tracked(d))]
  {
    assert ClearResult(t, root).fs == Cleared(t, root);
  }

  /** A merge whose dictionary is `m` is the link loop over its entries. */
  lemma MergeLinks(fs: Tree, cwd: Path, root: Path, dirs: seq<string>, list: string -> Result<seq<string>, Error>, m: PathMap)
    requires IsNormal(cwd) && IsNormal(root)
    requires MergeMapping(fs, cwd, dirs, list) == Ok(m)
    ensures ValidMap(m)
    ensures MergeResult(fs, cwd, root, dirs, list) == LinkAll(fs, Placements(root, Entries(m)))
  {
  }

  /** The link loop over the cleared directory links every key that fits,
      at a path other than the manifest's. */
  lemma KeysLinked(cleared: Tree, root: Path, m: PathMap)
    requires WellFormed(cleared) && IsNormal(root) && ValidMap(m)
    requires root in cleared && cleared[root].Dir?
    requires forall q :: q in cleared && Below(root, q) ==> Reserved(q[|root|])
    requires KeysFit(root, m)
    ensures var linked := LinkAll(cleared, Placements(root, Entries(m))).fs;
      forall k :: k in m.values ==>
        && AbsPath(root, k) in linked && linked[AbsPath(root, k)] == Symlink(PathString(m.values[k]))
        && AbsPath(root, k) != ManifestPath(root)
  {
    var es := Entries(m);
    var ps := Placements(root, es);
    PlacementsHaveRoom(cleared, root, m);
    LinkAllPlaces(cleared, root, ps);
    ReservedFiles(root);
    forall k | k in m.values
      ensures var linked := LinkAll(cleared, ps).fs;
        && AbsPath(root, k) in linked && linked[AbsPath(root, k)] == Symlink(PathString(m.values[k]))
        && AbsPath(root, k) != ManifestPath(root)
    {
      var i :| 0 <= i < |m.order| && m.order[i] == k;
      PlacementAt(root, es, i);
      assert ps[i].at == AbsPath(root, k);
    }
  }

  /** The placements of a dictionary whose keys satisfy the conditions above
      have room in the cleared directory and are apart. */
  lemma PlacementsHaveRoom(cleared: Tree, root: Path, m: PathMap)
    requires IsNormal(root) && ValidMap(m)
    requires forall q :: q in cleared && Below(root, q) ==> Reserved(q[|root|])
    requires KeysFit(root, m)
    ensures var ps := Placements(root, Entries(m));
      && (forall i :: 0 <= i < |ps| ==> Below(root, ps[i].at) && Room(cleared, root, ps[i].at))
      && Apart(ps)
  {
    var es := Entries(m);
    var ps := Placements(root, es);
    forall i | 0 <= i < |ps| ensures Below(root, ps[i].at) && Room(cleared, root, ps[i].at) {
      PlacementAt(root, es, i);
      assert m.order[i] in m.values;
      RoomInCleared(cleared, root, ps[i].at);
    }
    forall i, j | 0 <= i < |ps| && 0 <= j < |ps| && i != j ensures !(ps[i].at <= ps[j].at) {
      PlacementAt(root, es, i);
      PlacementAt(root, es, j);
      assert m.order[i] in m.values && m.order[j] in m.values && m.order[i] != m.order[j];
    }
  }

  /** After `_clear`, a path below the root under a name that is not reserved
      has room for a link. */
  lemma RoomInCleared(cleared: Tree, root: Path, q: Path)
    requires forall x :: x in cleared && Below(root, x) ==> Reserved(x[|root|])
    requires Below(root, q) && !Reserved(q[|root|])
    ensures Room(cleared, root, q)
  {
    forall b | |root| < b < |q| ensures q[..b] !in cleared {
      assert q[..b][|root|] == q[|root|];
      assert q[..b][..|root|] == root;
    }
  }

  /** Running `prepare` again right after one that took the lock and raised
      nothing skips the rebuild and changes nothing but truncating the lock
      file. */
  lemma PrepareIsIdempotent(d: SharedSourceDirectory, fs: Tree, cwd: Path, root: Path, list: string -> Result<seq<string>, Error>)
    requires WellFormed(fs) && IsNormal(cwd) && IsNormal(root) && |root| > 0
    requires Acquire(fs, root).outcome == Ok(true)
    requires PrepareAt(d, fs, cwd, root, list).error.None?
    ensures var again := PrepareAt(d, PrepareAt(d, fs, cwd, root, list).fs, cwd, root, list);
      && again.error.None?
      && !again.rebuilt
      && again.fs == PrepareAt(d, fs, cwd, root, list).fs[LockPath(root) := File(0)]
  {
    FirstRun(d, fs, cwd, root, list);
    SecondRun(d, PrepareAt(d, fs, cwd, root, list).fs, cwd, root, list);
  }

  /** A run that holds the lock and raises nothing leaves the root, the lock
      file and a manifest covering the request. */
  lemma FirstRun(d: SharedSourceDirectory, fs: Tree, cwd: Path, root: Path, list: string -> Result<seq<string>, Error>)
    requires WellFormed(fs) && IsNormal(cwd) && IsNormal(root) && |root| > 0
    requires Acquire(fs, root).outcome == Ok(true)
    requires PrepareAt(d, fs, cwd, root, list).error.None?
    ensures var t := PrepareAt(d, fs, cwd, root, list).fs;
      && WellFormed(t) && root in t && t[root].Dir? && LockPath(root) in t && !t[LockPath(root)].Dir?
      && var tracked := ReadManifest(t[LockPath(root) := File(0)], ManifestPath(root));
         tracked.Some? && IsUpToDate(d, tracked.value)
  {
    PrepareWellFormed(d, fs, cwd, root, list);
    if PrepareAt(d, fs, cwd, root, list).rebuilt {
      RebuiltRun(d, fs, cwd, root, list);
      RebuiltRunLeaves(d, PrepareAt(d, fs, cwd, root, list).fs, root);
    } else {
      SkippedRun(d, fs, cwd, root, list);
    }
  }

  lemma RebuiltRun(d: SharedSourceDirectory, fs: Tree, cwd: Path, root: Path, list: string -> Result<seq<string>, Error>)
    requires WellFormed(fs) && IsNormal(cwd) && IsNormal(root) && |root| > 0
    requires Acquire(fs, root).outcome == Ok(true)
    requires PrepareAt(d, fs, cwd, root, list).error.None? && PrepareAt(d, fs, cwd, root, list).rebuilt
    ensures var t := PrepareAt(d, fs, cwd, root, list).fs;
      && root in t && t[root].Dir? && LockPath(root) in t && !t[LockPath(root)].Dir?
      && ManifestPath(root) in t && t[ManifestPath(root)] == Manifest(Tracked(d))
  {
    PrepareWellFormed(d, fs, cwd, root, list);
    LockTaken(fs, root);
    PrepareRebuilt(d, fs, cwd, root, list);
    RebuildKeepsLock(d, Acquire(fs, root).fs, cwd, root, list);
  }

  lemma SkippedRun(d: SharedSourceDirectory, fs: Tree, cwd: Path, root: Path, list: string -> Result<seq<string>, Error>)
    requires IsNormal(cwd) && IsNormal(root) && |root| > 0
    requires Acquire(fs, root).outcome == Ok(true)
    requires !PrepareAt(d, fs, cwd, root, list).rebuilt
    ensures var t := PrepareAt(d, fs, cwd, root, list).fs;
      && root in t && t[root].Dir? && LockPath(root) in t && !t[LockPath(root)].Dir?
      && var tracked := ReadManifest(t[LockPath(root) := File(0)], ManifestPath(root));
         tracked.Some? && IsUpToDate(d, tracked.value)
  {
    LockTaken(fs, root);
    SkipIffUpToDate(d, fs, cwd, root, list);
    var t := Acquire(fs, root).fs;
    assert t[LockPath(root) := File(0)] == t;
  }

  lemma RebuiltRunLeaves(d: SharedSourceDirectory, t: Tree, root: Path)
    requires WellFormed(t) && IsNormal(root) && |root| > 0
    requires root in t && t[root].Dir? && LockPath(root) in t && !t[LockPath(root)].Dir?
    requires ManifestPath(root) in t && t[ManifestPath(root)] == Manifest(Tracked(d))
    ensures var tracked := ReadManifest(t[LockPath(root) := File(0)], ManifestPath(root));
      tracked.Some? && IsUpToDate(d, tracked.value)
  {
    AcquireAgain(t, root);
    ReservedFiles(root);
    ManifestReadBack(t[LockPath(root) := File(0)], root, Tracked(d));
  }

  /** A run over a tree holding the root, the lock file and a manifest that
      covers the request only truncates the lock file. */
  lemma SecondRun(d: SharedSourceDirectory, t: Tree, cwd: Path, root: Path, list: string -> Result<seq<string>, Error>)
    requires WellFormed(t) && IsNormal(cwd) && IsNormal(root) && |root| > 0
    requires root in t && t[root].Dir? && LockPath(root) in t && !t[LockPath(root)].Dir?
    requires var tracked := ReadManifest(t[LockPath(root) := File(0)], ManifestPath(root));
      tracked.Some? && IsUpToDate(d, tracked.value)
    ensures PrepareAt(d, t, cwd, root, list) == Prepared(t[LockPath(root) := File(0)], None, false)
  {
    AcquireAgain(t, root);
    SkipIffUpToDate(d, t, cwd, root, list);
  }

  /** Opening the lock file leaves the root a directory holding an empty lock file. */
  lemma LockTaken(fs: Tree, root: Path)
    requires |root| > 0 && Acquire(fs, root).outcome == Ok(true)
    ensures var a := Acquire(fs, root);
      root in a.fs && a.fs[root].Dir? && LockPath(root) in a.fs && a.fs[LockPath(root)] == File(0)
  {
    assert LockPath(root) != root;
  }

  /** Where the root is a directory and the lock file exists, `makedirs`
      changes nothing and the lock file is truncated. */
  lemma AcquireAgain(t: Tree, root: Path)
    requires WellFormed(t) && |root| > 0
    requires root in t && t[root].Dir? && LockPath(root) in t && !t[LockPath(root)].Dir?
    ensures Acquire(t, root) == Acquired(t[LockPath(root) := File(0)], Ok(true))
    ensures WellFormed(t[LockPath(root) := File(0)])
  {
    MakeDirsExisting(t, root);
    assert Parent(LockPath(root)) == root;
    OpenWellFormed(t, LockPath(root), File(0));
  }

  /** A rebuild that raises nothing keeps the root a directory and the lock
      file an entry that is no directory, and leaves the manifest written. */
  lemma RebuildKeepsLock(d: SharedSourceDirectory, fs: Tree, cwd: Path, root: Path, list: string -> Result<seq<string>, Error>)
    requires WellFormed(fs) && IsNormal(cwd) && IsNormal(root) && |root| > 0
    requires root in fs && fs[root].Dir? && LockPath(root) in fs && !fs[LockPath(root)].Dir?
    requires Rebuild(d, fs, cwd, root, list).error.None?
    ensures var r := Rebuild(d, fs, cwd, root, list).fs;
      && root in r && r[root].Dir? && LockPath(root) in r && !r[LockPath(root)].Dir?
      && ManifestPath(root) in r && r[ManifestPath(root)] == Manifest(Tracked(d))
  {
    ReservedFiles(root);
    ClearedLeavesReserved(fs, root);
    RebuildSucceeded(d, fs, cwd, root, list);
    var cleared := Cleared(fs, root);
    assert root in cleared && LockPath(root) in cleared;
    var m := MergeMapping(cleared, cwd, d.sourceDirectories, list).value;
    MergeLinks(cleared, cwd, root, d.sourceDirectories, list, m);
    LinkAllFrame(cleared, Placements(root, Entries(m)));
    LockSurvivesWrite(cleared, MergeResult(cleared, cwd, root, d.sourceDirectories, list).fs, root, Manifest(Tracked(d)));
  }

  /** A tree grown from `before` by a frame that keeps directories and
      non-directories still has the root and the lock file once the manifest
      is written. */
  lemma LockSurvivesWrite(before: Tree, after: Tree, root: Path, n: Node)
    requires |root| > 0
    requires root in before && before[root].Dir? && LockPath(root) in before && !before[LockPath(root)].Dir?
    requires forall q :: q in before ==> q in after && (after[q] == before[q] || after[q].Symlink?)
    requires forall q :: q in before && before[q].Dir? ==> after[q] == before[q]
    ensures var r := after[ManifestPath(root) := n];
      && root in r && r[root].Dir? && LockPath(root) in r && !r[LockPath(root)].Dir?
      && ManifestPath(root) in r && r[ManifestPath(root)] == n
  {
    assert LockPath(root) != ManifestPath(root) && root != ManifestPath(root) by {
      assert LockPath(root)[|root|] != ManifestPath(root)[|root|];
    }
  }

  // ---- The code as it changes the filesystem ----

  /** One turn of the link loop in `_merge`. */
  method Link(fs: Os.FileSystem, root: Path, relative: string, original: Path) returns (err: Option<Error>)
    requires fs.Valid() && IsNormal(root)
    modifies fs
    ensures fs.Valid()
    ensures Effect(fs.entries, err) == LinkAt(old(fs.entries), Place(root, relative, original))
  {
    var p := Place(root, relative, original);
    var ignored := fs.MakeDirs(Directory(p.at));
    var failed := fs.MakeLink(p.target, p.at);
    if failed == Some(EEXIST) {
      var e := fs.Unlink(p.at);
      if e.Some? {
        return Some(OSError(e.value));
      }
      e := fs.MakeLink(p.target, p.at);
      if e.Some? {
        return Some(OSError(e.value));
      }
    }
    return None;
  }

  /** `_merge()` for the shared directory `root`. */
  method Merge(fs: Os.FileSystem, cwd: Path, root: Path, dirs: seq<string>, list: string -> Result<seq<string>, Error>)
    returns (err: Option<Error>)
    requires fs.Valid() && IsNormal(cwd) && IsNormal(root)
    modifies fs
    ensures fs.Valid()
    ensures Effect(fs.entries, err) == MergeResult(old(fs.entries), cwd, root, dirs, list)
  {
    var mapping := MergeSourceDirectories(fs.entries, cwd, dirs, list);
    if mapping.Err? {
      return Some(mapping.error);
    }
    var es := Entries(mapping.value);
    ghost var ps := Placements(root, es);
    ghost var start := fs.entries;
    for j := 0 to |es|
      invariant fs.Valid()
      invariant LinkAll(start, ps) == LinkAll(fs.entries, ps[j..])
    {
      PlacementAt(root, es, j);
      assert ps[j..][0] == ps[j] && ps[j..][1..] == ps[j + 1..];
      var (relative, original) := es[j];
      err := Link(fs, root, relative, original);
      if err.Some? {
        return;
      }
    }
    return None;
  }

  /** The body of `with acquire_lock(...)` in `prepare()`. */
  method PrepareLocked(d: SharedSourceDirectory, fs: Os.FileSystem, cwd: Path, root: Path, list: string -> Result<seq<string>, Error>)
    returns (err: Option<Error>)
    requires fs.Valid() && IsNormal(cwd) && IsNormal(root)
    modifies fs
    ensures fs.Valid()
    ensures fs.entries == Locked(d, old(fs.entries), cwd, root, list).fs
    ensures err == Locked(d, old(fs.entries), cwd, root, list).error
  {
    var tracked := ReadManifest(fs.entries, ManifestPath(root));
    if tracked.Some? && IsUpToDate(d, tracked.value) {
      return None;
    }
    err := Clear(fs, root);
    if err.Some? {
      return;
    }
    err := Merge(fs, cwd, root, d.sourceDirectories, list);
    if err.Some? {
      return;
    }
    var e := fs.Open(ManifestPath(root), Manifest(Tracked(d)));
    if e.Some? {
      return Some(OSError(e.value));
    }
    return None;
  }

  /** `SharedSourceDirectory.prepare()` in working directory `cwd` and process `pid`. */
  method Prepare(d: SharedSourceDirectory, fs: Os.FileSystem, cwd: Path, pid: nat, list: string -> Result<seq<string>, Error>)
    returns (err: Option<Error>)
    requires fs.Valid() && IsNormal(cwd)
    modifies fs
    ensures fs.Valid()
    ensures fs.entries == PrepareResult(d, old(fs.entries), cwd, pid, list).fs
    ensures err == PrepareResult(d, old(fs.entries), cwd, pid, list).error
  {
    var root := RootPath(d, cwd, pid);
    var ignored := fs.MakeDirs(root);
    assert Parent(LockPath(root)) == root;
    var lockFailure := fs.Open(LockPath(root), File(0));
    if lockFailure.Some? && lockFailure.value != ENOENT {
      return Some(OSError(lockFailure.value));
    }
    var held := lockFailure.None?;
    var inner := PrepareLocked(d, fs, cwd, root, list);
    return Release(held, inner);
  }
}
