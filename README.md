# Shared source directory (pyre client)

This project models the engine that builds pyre's *shared source directory*.
That directory is `.pyre/shared_source_directory`, or
`.pyre/shared_source_directory_<pid>` when the run is isolated. It is a
symbolic-link overlay that merges several source directories into one tree:

- For every Python file under a source directory, it holds a link at that
  file's path relative to the source directory.
- The link points at the file's canonical (real) path.
- The first directory to offer a relative path claims it.
- An empty `__init__.py` never claims a path.
- Paths that do not resolve to a regular file are skipped.

Alongside the links, the directory holds two bookkeeping files:

- `.pyre.lock`, the lock file;
- `.pyre.source_directories`, the manifest of the source directories the
  overlay was last built from.

`prepare` works in this order:

1. Create the root.
2. Take the lock.
3. Skip all work when the manifest already covers every requested
   directory.
4. Otherwise remove everything in the root except the `.pyre*` entries.
5. Merge the links in.
6. Write the manifest.

The filesystem is a value: `FileTree.Tree`, a map from normalised absolute
paths (sequences of names) to nodes. A node is a directory, a regular file
of some size, a manifest file holding a set of strings, or a symbolic link
holding its target text.

- Each `os`/`shutil` call the engine makes is a function on that map. It
  returns the new map or an errno (`ENOENT`, `ENOTDIR`, `EEXIST`, `EISDIR`,
  `ELOOP`).
- Class `Os.FileSystem` wraps the map as a mutable field. Its methods
  change the field exactly as the functions say.
- The imperative parts of the engine are methods. Three of them change
  that class:
  - the clearing loop (`Clearing.Clear`);
  - the link loop (`SharedSource.Merge`);
  - `prepare` itself (`SharedSource.Prepare`).

  The per-directory scan (`PathMerge.MergeSourceDirectory`) only reads the
  filesystem; it is a loop over a tree value that updates the dictionary.
  Each method is proved equal to a specification function. The properties
  of the engine are lemmas about those functions.

The listing of a source directory is a **parameter** `list`. The concrete
instance `PathMerge.Lister(cwd, find)` is the behaviour of
`_find_python_paths`, with the result of the `find` process as a further
parameter. The process working directory and the process id are parameters
too. The set of source directories is a sequence, in the order Python's set
happens to iterate it.

Modules:

- `Outcomes`: option, result and the Python exceptions that matter.
- `Text`: split, strip and join.
- `Paths`: `abspath`, `relpath`, `join`.
- `FileTree`: the filesystem calls.
- `Os`: the mutable filesystem.
- `Listing`: `find` and `hg` output.
- `PathMerge`: `_merge_source_directory` and the `all_paths` dictionary.
- `Links`: the link loop of `_merge`.
- `Clearing`: `_clear`, `remove_if_exists`.
- `SharedSource`: the class, the lock, `prepare`.

## Model

| member | source | states |
|---|---|---|
| SharedSource.Prepare | client/filesystem.py:35-67 | whole `prepare` run on the mutable filesystem: the final filesystem and the raised error are those of `PrepareResult` (root from the pid and cwd, makedirs, lock, manifest test, rebuild) |
| SharedSource.PrepareLocked | client/filesystem.py:47-65 | body under the lock: read manifest, return early when up to date, otherwise clear, merge and write the manifest; state and error equal `Locked` |
| SharedSource.PrepareAt | client/filesystem.py:40-46 | a lock file that cannot be opened for a reason other than "not found" raises that `OSError` before the manifest is read, with the filesystem as taking the lock left it and nothing rebuilt |
| SharedSource.SkipIffUpToDate | client/filesystem.py:47-56 | a run leaves the overlay untouched (no error, filesystem as after taking the lock) exactly when a readable manifest lists a superset of the requested directories; an unreadable or missing manifest always rebuilds |
| SharedSource.PrepareRebuilt | client/filesystem.py:47-65 | a rebuilding run took the lock, found the manifest under it missing, unreadable or not covering the request, and ends with the tree of `Rebuild` over the locked tree and its error as the lock's exit adjusts it |
| SharedSource.RebuildSucceeded | client/filesystem.py:58-65 | a rebuild without error cleared an existing root directory, merged without error, and then wrote the manifest on top |
| SharedSource.ManifestWrittenLast | client/filesystem.py:63-65 | after a successful rebuild, reading the manifest back yields exactly the requested set of source directories |
| SharedSource.ManifestReadBack | client/filesystem.py:48-49 | a manifest file at the manifest path is read back as its tracked set |
| SharedSource.MergeFailureKeepsManifest | client/filesystem.py:58-65 | when listing a source directory fails, the run has already cleared the overlay, raises the (lock-adjusted) listing error, and leaves the old manifest as it was |
| SharedSource.RebuildLinksEqualMapping | client/filesystem.py:85-105 | after a rebuild whose dictionary has keys that fit under the root, every key is a symlink at root/key to its canonical original, and conversely every entry below the root outside the `.pyre*` names is such a link or a directory on the way to one |
| SharedSource.RebuildOnlyLinks | client/filesystem.py:58-105 | a rebuild over a root directory leaves below the root, outside the `.pyre*` names, only the links of the dictionary and the directories above them |
| SharedSource.LinkedOnlyMapping | client/filesystem.py:91-105 | the link loop over the cleared root adds, outside the `.pyre*` names, only the dictionary's links, each to its value, and directories on the way to a key |
| SharedSource.OnlyLinksSurviveWrite | client/filesystem.py:63-65 | writing the manifest, under a reserved name, keeps the tree below the root made of the links and their directories |
| SharedSource.RebuildLinks | client/filesystem.py:60-65 | the links placed by the merge survive the manifest write |
| SharedSource.RebuildOverLinks | client/filesystem.py:61-65 | a rebuild's filesystem is the link loop's result over the cleared root, or that result with the manifest written on top |
| SharedSource.KeysLinked | client/filesystem.py:91-105 | over a cleared root, linking every mapping entry leaves each key as a symlink to its original, never at the manifest path |
| SharedSource.PlacementsHaveRoom | client/filesystem.py:91-93 | the link positions computed from a fitting mapping lie below the root, have room in the cleared tree and are pairwise not nested |
| SharedSource.RoomInCleared | client/filesystem.py:76-83 | in a cleared root, every path whose first component is not `.pyre*` has room to be created |
| SharedSource.PrepareIsIdempotent | client/filesystem.py:35-67 | a second `prepare` right after a successful one raises nothing, does not rebuild, and only truncates the lock file |
| SharedSource.RebuildKeepsLock | client/filesystem.py:45-65 | a successful rebuild keeps the root directory and the lock file and leaves the new manifest |
| SharedSource.LockTaken | client/filesystem.py:195 | taking the lock leaves the root a directory and the lock file an empty regular file |
| SharedSource.AcquireAgain | client/filesystem.py:40-46 | with root and lock file present, taking the lock only truncates the lock file |
| SharedSource.Acquire | client/filesystem.py:191-206 | the lock is held exactly when makedirs left the root a directory and the lock path is not a directory, in which case the lock file is created empty; whenever the lock file is not opened the tree is the one makedirs left |
| SharedSource.NoUnlockedRun | client/filesystem.py:191-206 | in a well-formed tree opening the lock after makedirs never fails with "not found", so the body never runs without the lock |
| SharedSource.Locked | client/filesystem.py:47-65 | the body under the lock skips the rebuild exactly when the manifest reads back and covers every requested directory, and a skip changes nothing and raises nothing |
| SharedSource.Release | client/filesystem.py:202-206 | leaving the lock scope keeps "error or no error"; the only error that changes is `FileNotFoundError` raised while the lock is held, which the generator's second yield turns into a `RuntimeError` |
| SharedSource.MergeResult | client/filesystem.py:85-90 | a failing listing makes `_merge` raise that error before any link is made |
| SharedSource.Rebuild | client/filesystem.py:58-65 | a rebuild always counts as rebuilt; a root that cannot be listed raises that error and changes nothing |
| SharedSource.RootsOfProcesses | client/filesystem.py:31-33 | isolated runs of two processes get the same root exactly when their pids are equal; non-isolated runs always share one root |
| SharedSource.GetRootJoins | client/filesystem.py:31-33 | the root string is the two path components `.pyre` and the directory name joined by `/` |
| SharedSource.GetRootResolves | client/filesystem.py:31-37 | resolving the root string against the working directory gives `cwd/.pyre/<name>` |
| SharedSource.RootPath | client/filesystem.py:31-33 | the resolved root is a normal path two components below the working directory |
| SharedSource.RootNameProper | client/filesystem.py:32-33 | both components of the root are ordinary names (not empty, `.`, `..`, no slash) |
| SharedSource.ReservedFiles | client/filesystem.py:45-48 | the lock file and the manifest sit directly in the root under names starting with `.pyre`, so clearing spares them |
| SharedSource.Link | client/filesystem.py:92-105 | one link step on the mutable filesystem has the state and error of `Links.LinkAt` |
| SharedSource.Merge | client/filesystem.py:85-105 | `_merge` on the mutable filesystem: the state and error equal `MergeResult` (scan first, then link entries in insertion order, stopping at the first raised error) |
| Links.Entries | client/filesystem.py:91 | `all_paths.items()` lists every key of the dictionary exactly once, in insertion order, each with its value |
| Links.PlaceJoins | client/filesystem.py:92 | the link for a relative path made of proper names goes at the root followed by those names, and its target text resolves back to the original path |
| Links.PlacementAt | client/filesystem.py:91-92 | the i-th placement is made from the i-th dictionary item |
| Links.LinkAtCases | client/filesystem.py:94-105 | after makedirs of the parent: a place that is free or not a directory ends as the link (an existing non-directory is unlinked and relinked); an existing directory raises `EISDIR`; a bad parent logs and skips |
| Links.LinkAt | client/filesystem.py:94-105 | the only exception a link step raises is `EISDIR`, from unlinking a directory at the retry, and the tree is then as makedirs left it |
| Links.LinkAll | client/filesystem.py:91-105 | the only exception the link loop raises is `EISDIR` |
| Links.LinkAtFrame | client/filesystem.py:94-105 | one link step keeps the tree well formed, keeps every directory, changes an existing entry only into the placed link, and adds only directories and the link |
| Links.LinkAllFrame | client/filesystem.py:91-105 | the same frame for the whole link loop: only placed paths become symlinks, directories survive, new entries are directories or placed links |
| Links.LinkSkipContinues | client/filesystem.py:98-105 | a link whose parent is still not a directory after makedirs is logged and skipped: the loop goes on with the next entry over the tree makedirs left |
| Links.LinkAtPlaces | client/filesystem.py:94-99 | a place with room below an existing root gets its parents created and the link placed, with no error |
| Links.RoomAfterLink | client/filesystem.py:94-99 | placing one link leaves room for any other path not nested with it |
| Links.LinkAllPlaces | client/filesystem.py:91-105 | pairwise unnested places with room below the root are all linked to their targets without error |
| Clearing.Clear | client/filesystem.py:76-83 | `_clear` on the mutable filesystem: state and error equal `ClearResult` for any iteration order of `listdir` |
| Clearing.ClearResult | client/filesystem.py:76-83 | a root that is not a directory raises an OSError and changes nothing; otherwise the result is `Cleared` |
| Clearing.Cleared | client/filesystem.py:76-83 | clearing adds nothing and changes no value; it keeps everything outside the root and every entry under a `.pyre*` name; what remains below the root is under a `.pyre*` name |
| Clearing.ClearedLeavesReserved | client/filesystem.py:76-83 | after clearing, the root lists exactly the `.pyre*` names it listed before, and the tree stays well formed |
| Clearing.ClearStep | client/filesystem.py:78-83 | one loop turn removes the named subtree, or nothing for a `.pyre*` name |
| Clearing.ClearedByAll | client/filesystem.py:78-83 | once every listed name has been visited the result is `Cleared` |
| Clearing.RemoveIfExists | client/filesystem.py:180-188 | `remove_if_exists` on the mutable filesystem: remove, then rmtree, each error swallowed |
| Clearing.RemovedPrunes | client/filesystem.py:180-188 | `remove_if_exists` of a path removes that path and everything below it, whatever it was, and nothing else |
| PathMerge.MergeSourceDirectory | client/filesystem.py:108-129 | scanning one source directory: a failing listing raises its error; otherwise the dictionary becomes the fold of the judgements over the listed paths |
| PathMerge.MergeSourceDirectories | client/filesystem.py:88-90 | scanning every source directory in turn gives the first listing error, or the fold over all candidates from an empty dictionary |
| PathMerge.MergeMapping | client/filesystem.py:88-90 | the dictionary is built exactly when every listing succeeds, and it is then a valid insertion-ordered map |
| PathMerge.Judge | client/filesystem.py:113-127 | a path is accepted exactly when it is non-empty, its canonical path is a regular file, and it is not an empty file whose key ends in `__init__.py`; it is then keyed by its relative path and valued by its canonical path |
| PathMerge.NonEmptyFileAccepted | client/filesystem.py:119-127 | a non-empty path that resolves to a non-empty regular file is accepted |
| PathMerge.Step | client/filesystem.py:117-127 | a key already in the dictionary keeps its value; a key that appears is the accepted key with its canonical path |
| PathMerge.Fold | client/filesystem.py:116-118 | the scan keeps the dictionary valid and never changes the value of a key already in it |
| PathMerge.Discover | client/filesystem.py:132-165 | `_find_python_paths` runs `find` on the directory's absolute path and succeeds exactly on exit 0, with at least one path |
| PathMerge.DiscoverAll | client/filesystem.py:89-90 | every candidate was listed under one of the requested directories |
| PathMerge.Turn | client/filesystem.py:112-127 | one loop turn: an empty path leaves the dictionary as it is; a key already present is kept; otherwise an accepted path is inserted |
| PathMerge.FoldIsFirstClaim | client/filesystem.py:116-127 | a key ends up in the dictionary exactly when it was there before or some candidate is accepted for it, and then its value is the canonical path of the first such candidate; earlier values are never overwritten |
| PathMerge.FoldAddsFiles | client/filesystem.py:120-127 | every key the scan adds points at a regular file and is not an empty `__init__.py` |
| PathMerge.FoldAppend | client/filesystem.py:89-90 | scanning two lists in turn is scanning their concatenation |
| PathMerge.SkippedInvisible | client/filesystem.py:114-126 | a skipped candidate has no effect on the result wherever it appears |
| PathMerge.EmptyInitSkipped | client/filesystem.py:124-126 | an empty file whose relative path ends in `__init__.py` never claims its key |
| PathMerge.StubsAreNotExempt | client/filesystem.py:124 | a `.pyi` stub is accepted exactly when it resolves to a regular file, even when it is empty |
| PathMerge.EitherOrder | client/filesystem.py:89-90 | when only one of two source directories offers a key, the key ends with the same value whichever directory is scanned first |
| PathMerge.InitConflict | client/filesystem.py:124-127 | an empty and a non-empty `__init__.py` with the same relative path: the non-empty one wins in either order |
| PathMerge.Insert | client/filesystem.py:127 | inserting a new key appends it to the insertion order and maps it to the value |
| PathMerge.Apply | client/filesystem.py:116-127 | applying verdicts keeps every existing key and value and only extends the insertion order |
| PathMerge.ApplyIsFirstAccept | client/filesystem.py:116-127 | a key is present after the verdicts exactly when it was before or some verdict accepts it, valued by the first such verdict |
| PathMerge.DiscoverAllSucceeds | client/filesystem.py:89-90 | listing all directories succeeds exactly when every listing succeeds |
| PathMerge.DiscoverAllFails | client/filesystem.py:89-90 | the error raised is the one of the first directory whose listing fails |
| PathMerge.DiscoverAllHolds | client/filesystem.py:89-90 | every listed path of every directory is among the candidates |
| PathMerge.ConsiderAsWritten | client/filesystem.py:112-129 | one loop turn as written, computing `relpath` before the empty-path guard |
| PathMerge.TurnAsWritten | client/filesystem.py:112-127 | a turn as written raises `ValueError` on an empty path and otherwise does what the corrected turn does |
| PathMerge.FoldAsWritten | client/filesystem.py:112-129 | the scan as written yields a valid dictionary whenever it does not raise |
| PathMerge.FoldAsWrittenRaises | client/filesystem.py:113-115 | the scan as written raises exactly when some listed path is empty, and the error is `ValueError("no path specified")`; otherwise it agrees with the corrected scan |
| PathMerge.EmptyDirectoryRaises | client/filesystem.py:111-115 | a `find` that prints nothing yields `[""]`, which the corrected scan ignores and the scan as written turns into a `ValueError` |
| PathMerge.SilentDirectoryAsWritten | client/filesystem.py:88-115 | with any source directory in which `find` prints nothing, the mapping as written raises while the corrected mapping is built |
| PathMerge.MergeMappingAsWritten | client/filesystem.py:88-115 | the dictionary as written, each directory listed and then scanned before the next is listed, is valid whenever it is built |
| PathMerge.FoldAsWrittenAppend | client/filesystem.py:112-129 | scanning a concatenation as written scans the first part, and the second only when the first raised nothing |
| PathMerge.MergeAsWrittenAllListed | client/filesystem.py:88-90 | when every listing succeeds, the dictionary as written is the scan as written of all candidates in order |
| PathMerge.ScannedBeforeNextListing | client/filesystem.py:89-115 | as written, a first directory that lists `[""]` raises `ValueError` before a second directory that cannot be listed is reached, where the corrected merge raises the second listing's error |
| Listing.FindPythonPaths | client/filesystem.py:132-170 | `find` exiting 0 gives its stripped output split at newlines (at least one element, none containing a newline); a non-zero exit raises `EnvironmentException`; a missing executable raises `FileNotFoundError` |
| Listing.FindPrintsNothing | client/filesystem.py:163-165 | output that is only whitespace yields the single empty path |
| Listing.FilesystemList | client/filesystem.py:209-215 | `Filesystem.list` succeeds exactly on exit 0, and its words are non-empty, free of whitespace and together the output without whitespace; a non-zero exit raises `CalledProcessError` with that code, and a missing `find` raises `FileNotFoundError` |
| Listing.HgList | client/filesystem.py:218-240 | `hg files` exiting 1 yields no files; exit 0 yields the output's words, each non-empty and free of whitespace; any other exit code or a missing executable raises `EnvironmentException` with the matching message |
| Listing.ListsSpacedWords | client/filesystem.py:209-228 | for output made of whitespace-free words separated by runs of whitespace, both listers return exactly those words, in order |
| Listing.HgErrorCarriesCode | client/filesystem.py:234-238 | two unexpected exit codes give the same error only when they are the same code |
| Listing.SelectFilesystem | client/filesystem.py:243-249 | the Mercurial backend is chosen exactly when `hg status` exits 0 |
| Listing.NoMatchesOnlyUnderMercurial | client/filesystem.py:209-240 | an exit code of 1 means "no matches" under Mercurial but an error with the plain backend |
| FileTree.IsEmpty | client/filesystem.py:173-177 | true exactly for a file of size 0; a missing path is not empty; other stat errors propagate |
| FileTree.Stat | client/filesystem.py:175 | `os.stat` reports the node a path resolves to, never a symlink |
| FileTree.StatThroughLink | client/filesystem.py:120-122 | a link to an existing entry that is no link stats as that entry, and `isfile` holds of it exactly when the entry is a regular file |
| FileTree.IsFilePlain | client/filesystem.py:122 | `isfile` of an entry that is no link holds exactly when it is a regular file |
| FileTree.RealpathWithoutLinks | client/filesystem.py:120 | in a tree without symlinks `realpath` is `abspath` |
| FileTree.ReadManifest | client/filesystem.py:47-49 | the manifest is read exactly when the path resolves to a manifest file, giving its tracked set |
| FileTree.ListDir | client/filesystem.py:78 | `os.listdir` succeeds exactly on a directory and lists exactly its children |
| FileTree.Mkdir | client/filesystem.py:41 | `mkdir` succeeds exactly when the parent is a directory and the path is free |
| FileTree.MakeDirs | client/filesystem.py:40-43 | a makedirs that reports no failure leaves the path a directory |
| FileTree.MakeDirsOutcome | client/filesystem.py:40-43 | in a well-formed tree makedirs of a non-empty path leaves it present (created, or `EEXIST` for an existing entry) or leaves it absent, failing with `ENOTDIR` at a parent that is no directory |
| FileTree.MakeDirsFrame | client/filesystem.py:94-97 | makedirs changes no existing entry and adds only directories on the way to the path |
| FileTree.MakeDirsReaches | client/filesystem.py:94-97 | from an existing directory through directories or free names, makedirs creates the path as a directory |
| FileTree.MakeDirsExisting | client/filesystem.py:40-43 | makedirs of an existing path changes nothing and raises `EEXIST` |
| FileTree.MakeLink | client/filesystem.py:99 | `symlink` succeeds exactly when the parent is a directory and the place is free; an occupied place raises `EEXIST` |
| FileTree.Unlink | client/filesystem.py:102 | `unlink` removes exactly one non-directory entry |
| FileTree.RmTree | client/filesystem.py:186 | `rmtree` succeeds exactly on a directory and removes it with everything below |
| FileTree.Open | client/filesystem.py:64 | opening for writing succeeds exactly when the parent is a directory and the path is not a directory, and replaces the content |
| FileTree.ParentCheck | client/filesystem.py:99 | the parent lookup succeeds exactly for a top-level path or a directory parent, and otherwise reports `ENOENT` or `ENOTDIR` |
| FileTree.MakeDirsWellFormed | client/filesystem.py:40-43 | makedirs keeps every entry's ancestors directories |
| FileTree.AncestorOf | client/filesystem.py:76-83 | in a well-formed tree every proper ancestor of an entry is a directory |
| Os.FileSystem.MakeDirs | client/filesystem.py:40-43 | changes the tree exactly as `FileTree.MakeDirs` and reports its error |
| Os.FileSystem.MakeLink | client/filesystem.py:99 | changes the tree exactly as `FileTree.MakeLink` or leaves it and reports the errno |
| Os.FileSystem.Unlink | client/filesystem.py:182 | changes the tree exactly as `FileTree.Unlink` or leaves it and reports the errno |
| Os.FileSystem.RmTree | client/filesystem.py:186 | changes the tree exactly as `FileTree.RmTree` or leaves it and reports the errno |
| Os.FileSystem.Open | client/filesystem.py:195 | changes the tree exactly as `FileTree.Open` or leaves it and reports the errno |
| Paths.RelPath | client/filesystem.py:113 | `relpath` fails exactly on the empty path, with `ValueError("no path specified")` |
| Paths.RelPathRoundTrip | client/filesystem.py:113 | joining the relative path back onto its start gives the original path |
| Paths.RelPathBelow | client/filesystem.py:113 | a path below its start is related by exactly the components below it |
| Paths.Normalize | client/filesystem.py:133 | normalisation always yields a normal path (no empty, `.` or `..` component) |
| Paths.NormalizeClimbs | client/filesystem.py:113 | leading `..` components climb exactly that many levels |
| Paths.AbsPathOfPathString | client/filesystem.py:99 | the text of a normal absolute path resolves back to that path |
| Text.JoinSplit | client/filesystem.py:165 | joining the pieces of a split with its separator gives the text back |
| Text.SplitJoin | client/filesystem.py:165 | splitting a join of separator-free pieces gives the pieces back |
| Text.Strip | client/filesystem.py:163 | the stripped text is a slice of the input with whitespace only around it and none at its ends |
| Text.SplitWhitespaceKeepsText | client/filesystem.py:214 | the words of a whitespace split, concatenated, are the text without its whitespace |
| Text.SplitWhitespaceSpaced | client/filesystem.py:214 | splitting words joined by whitespace runs gives back exactly the words |
| Text.IntToStringInjective | client/filesystem.py:32 | distinct pids print differently |
| Text.ParseNatToString | client/filesystem.py:32 | decimal printing of a natural number reads back as that number |

## Left out

- Logging, timing (`time()`), `LOG.error` of a failed link: side output only. A skipped link is modelled; its message is not.
- `SharedSource.Acquire`: the `fcntl` lock itself, blocking and mutual exclusion between processes. The model is one process. It covers the lock file's creation and truncation, and the error of an `open` that fails.
- `SharedSource.Acquire`: the `FileNotFoundError` fallback of `acquire_lock` (lines 205-206), which runs the body without a lock, is a branch of the model, but `SharedSource.NoUnlockedRun` shows that no well-formed tree reaches it. In the source it is also reached when `.pyre` or the root is a dangling symlink: `makedirs` fails, lines 42-43 swallow the error, and `open` raises `FileNotFoundError`. It is reached, too, when the root is removed between `makedirs` and `open`. The model's parent lookup is literal (see the `FileTree` line below) and reports `ENOTDIR` at a symlink, so `NoUnlockedRun` is a fact about the model, not about the source.
- `cleanup`: an isolated-root `rmtree` with every exception swallowed, outside the build path. It is not modelled.
- `functools.lru_cache` on `get_filesystem`: caching is not observable in one call. `Listing.SelectFilesystem` models one probe.
- Subprocesses: `find` and `hg` are parameters (`ProcessOutcome`). Their output, and the `find` predicates (`-name *.py -or *.pyi`, `-type f -or l`), are not computed from the tree. UTF-8 decoding is the identity on Dafny strings.
- JSON: the manifest is a node holding the tracked set, and every non-manifest file reads as "no manifest", which rebuilds, as the source does for a `JSONDecodeError`. Other JSON values are not modelled. `set(json.load(file))` at line 49 raises nothing for a JSON string or object: it yields the set of its characters or keys, which line 51 then compares. It raises an uncaught `TypeError` for a number, `null`, a boolean or a list holding lists or objects. A manifest file that is not valid UTF-8 is not modelled either: Python's read raises `UnicodeDecodeError`, which the handler at line 55 does not catch, so `prepare` raises where the model rebuilds.
- `PathMerge.Judge`: the race in which a listed file vanishes between `find` and `realpath`/`isfile`/`stat` (the `FileNotFoundError` catch at line 128, the `ENOENT` branch of `is_empty`) cannot happen in one snapshot. The model takes one filesystem state for the whole scan.
- `FileTree.Resolve`: symlink resolution takes the tree's size as fuel and spends one unit per link expansion. Python's `realpath` has no such bound: it remembers each link it has resolved. When the fuel runs out, `FileTree.Realpath` returns the path resolved so far with the remaining names appended unresolved, and `Stat` and `isfile` then resolve that path again with fresh fuel. So a path needing more expansions than the tree has entries can be accepted with a canonical path that is not fully resolved, where Python stores the resolved one. Example: a regular file `/d`, a link `/t -> d` and a link `/u -> t/../t/../t`, three entries in all. Resolving `/u` needs four expansions; `Realpath` stops at `/t`, which `isfile` accepts through the link, so `/u` is linked to `/t` where Python links it to `/d`. A genuine loop never resolves and is skipped, which is what `isfile` says of a loop.
- `FileTree.Open`: a symlink at the opened path is replaced by the written file, whereas Python's `open` writes through the link to its target. This matters only for a lock file or manifest that is already a symlink. `prepare` never makes one: `_clear` keeps `.pyre*` entries as they are, and `_merge` links only the `.py` and `.pyi` paths `find` lists.
- `FileTree`: `mkdir`, `symlink`, `unlink`, `open` and `listdir` check the literal parent entry and do not follow symlinks in the parent chain. `makedirs`' existence test is "entry present".
- `Paths.AbsPath`: `os.path.abspath` is normalisation against the working directory. `realpath` is `FileTree.Realpath`.
- `PathMerge.Judge`: `endswith("__init__.py")` matches any name ending that way (for example `x__init__.py`) and does not cover `__init__.pyi`. This is modelled as written.
- The manifest's "missing or unreadable" case: the code rebuilds. It does not treat it as an empty tracked set that is then compared.
- Duplicate entries in the source-directory sequence: the source's `set` removes them before iteration. `SharedSource.Tracked` takes the set; the scan order is an arbitrary sequence.
- `SharedSource.RebuildLinksEqualMapping`, `SharedSource.KeysLinked` and `SharedSource.PlacementsHaveRoom` state the link property only for keys that fit (`KeysFit`): keys below the root, none nested in another, none under a `.pyre*` first component. The source links other keys too, for instance when a source directory `.` lists the links of an earlier build under `.pyre/shared_source_directory`. Such a key may land inside another link or next to the lock, and what the tree then holds is not stated.
- `SharedSource.Rebuild`: at the `EEXIST` retry, `unlink` of an existing directory raises `EISDIR` and stops the rebuild before the manifest is written. This is modelled (`Links.LinkAtCases`), not prevented.
- `SharedSource.Prepare`, `SharedSource.PrepareLocked`, `SharedSource.Merge`, `PathMerge.MergeSourceDirectory`, `PathMerge.MergeSourceDirectories` and `PathMerge.MergeMapping` run the corrected loop, which tests for an empty path before calling `relpath`. The code as written, which raises on an empty path, is `PathMerge.MergeMappingAsWritten` (see Findings). Since the corrected scan never raises, listing every directory before scanning gives the same result as listing and scanning each directory in turn.
- `rage.py`, the test suite and other client modules use this engine and are not part of this model.

## Findings

| source | as written | input that shows it | evidently intended | confidence | as-written member | corrected member |
|---|---|---|---|---|---|---|
| client/filesystem.py:113-115 | `os.path.relpath(path, source_directory)` runs before the `if not path: continue` guard, and `relpath("")` raises `ValueError("no path specified")` | a source directory in which `find` prints nothing: `_find_python_paths` returns `[""]` (lines 163-165), so `_merge` raises after `_clear` has emptied the overlay and before the manifest is written | the empty path is skipped and the overlay is rebuilt from the other directories | not executed | PathMerge.SilentDirectoryAsWritten | PathMerge.MergeMapping |
