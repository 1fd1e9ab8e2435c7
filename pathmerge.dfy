/** `_merge_source_directory` and the first half of `_merge`: every source
    directory is listed with `find`, and the listed paths are folded, in order,
    into a dictionary from relative path to canonical file. */
module PathMerge {
  import opened Text
  import opened Outcomes
  import opened Paths
  import opened FileTree
  import opened Listing

  /** The `all_paths` dictionary: relative path to canonical path, and the
      order in which the keys were inserted (the order `items()` yields). */
  datatype PathMap = PathMap(order: seq<string>, values: map<string, Path>)

  ghost predicate ValidMap(m: PathMap)
  {
    && (forall i, j :: 0 <= i < j < |m.order| ==> m.order[i] != m.order[j])
    && (forall k :: k in m.values <==> k in m.order)
  }

  function Empty(): (m: PathMap)
    ensures ValidMap(m) && m.values == map[]
  {
    PathMap([], map[])
  }

  /** `all_paths[k] = v` for a key that is not there yet. */
  function Insert(m: PathMap, k: string, v: Path): (r: PathMap)
    requires ValidMap(m) && k !in m.values
    ensures ValidMap(r) && r.order == m.order + [k] && r.values == m.values[k := v]
  {
    PathMap(m.order + [k], m.values[k := v])
  }

  /** One line of `find` output and the source directory it was listed under. */
  datatype Candidate = Candidate(directory: string, path: string)

  function Tag(sd: string, paths: seq<string>): (r: seq<Candidate>)
    ensures |r| == |paths|
    ensures forall i :: 0 <= i < |r| ==> r[i] == Candidate(sd, paths[i])
  {
    seq(|paths|, i requires 0 <= i < |paths| => Candidate(sd, paths[i]))
  }

  /** `os.path.relpath(path, source_directory)`, for a non-empty path. */
  function Relative(cwd: Path, c: Candidate): string
    requires IsNormal(cwd) && c.path != ""
  {
    RelPath(cwd, c.path, c.directory).value
  }

  /** `os.path.realpath(path)`. */
  function Canonical(fs: Tree, cwd: Path, c: Candidate): Path
  {
    Realpath(fs, cwd, c.path)
  }

  /** What one turn of the loop decides about a listed path, before looking
      at the dictionary: skip it, or offer `target` for the slot `key`. */
  datatype Verdict = Skip | Accept(key: string, target: Path)

  /** The tests of one turn of the loop that do not depend on the dictionary:
      an empty path is skipped (the guard, taken before `relpath` as intended);
      otherwise the canonical path must be a regular file, and must not be an
      empty file when the relative path ends in `__init__.py`. A canonical path
      that has vanished is no regular file. */
  function Judge(fs: Tree, cwd: Path, c: Candidate): (v: Verdict)
    requires IsNormal(cwd)
    ensures v.Accept? ==> c.path != "" && v.key == Relative(cwd, c) && v.target == Canonical(fs, cwd, c)
    ensures v.Accept? ==> IsFile(fs, v.target)
    ensures v.Accept? ==> !(EndsWith(v.key, "__init__.py") && Stat(fs, v.target) == Ok(File(0)))
    // and conversely: a non-empty path resolving to a regular file that is not
    // an empty `__init__.py` is offered, whatever its size or kind of file
    ensures c.path != "" && IsFile(fs, Canonical(fs, cwd, c))
      && !(EndsWith(Relative(cwd, c), "__init__.py") && Stat(fs, Canonical(fs, cwd, c)) == Ok(File(0)))
      ==> v == Accept(Relative(cwd, c), Canonical(fs, cwd, c))
  {
    if c.path == "" then Skip
    else
      var relative := Relative(cwd, c);
      var absolute := Canonical(fs, cwd, c);
      if !IsFile(fs, absolute) then Skip
      else if EndsWith(relative, "__init__.py") && IsEmpty(fs, absolute) == Ok(true) then Skip
      else Accept(relative, absolute)
  }

  /** The rest of the turn: an offer is taken only if its slot is still free. */
  function Step(v: Verdict, m: PathMap): (r: PathMap)
    requires ValidMap(m)
    ensures ValidMap(r)
    // a key already present keeps its value; a new key is the one offered
    ensures forall k :: k in m.values ==> k in r.values && r.values[k] == m.values[k]
    ensures forall k :: k in r.values && k !in m.values ==> Takes(v, k) && r.values[k] == v.target
  {
    if v.Accept? && v.key !in m.values then Insert(m, v.key, v.target) else m
  }

  /** The dictionary after the verdicts `vs`, in order, starting from `m`. */
  function Apply(vs: seq<Verdict>, m: PathMap): (r: PathMap)
    requires ValidMap(m)
    ensures ValidMap(r)
    // a key, once in, keeps its value, and insertion order only grows
    ensures forall k :: k in m.values ==> k in r.values && r.values[k] == m.values[k]
    ensures |m.order| <= |r.order| && r.order[..|m.order|] == m.order
    decreases |vs|
  {
    if vs == [] then m else Step(vs[|vs| - 1], Apply(vs[..|vs| - 1], m))
  }

  lemma ApplySnoc(vs: seq<Verdict>, v: Verdict, m: PathMap)
    requires ValidMap(m)
    ensures Apply(vs + [v], m) == Step(v, Apply(vs, m))
  {
    assert (vs + [v])[..|vs|] == vs;
  }

  /** Applying a concatenation is applying one part after the other. */
  lemma {:induction false} ApplyAppend(xs: seq<Verdict>, ys: seq<Verdict>, m: PathMap)
    requires ValidMap(m)
    ensures Apply(xs + ys, m) == Apply(ys, Apply(xs, m))
    decreases |ys|
  {
    if ys == [] {
      assert xs + ys == xs;
    } else {
      var init, last := ys[..|ys| - 1], ys[|ys| - 1];
      assert ys == init + [last];
      assert xs + ys == (xs + init) + [last];
      ApplyAppend(xs, init, m);
      ApplySnoc(xs + init, last, m);
      ApplySnoc(init, last, Apply(xs, m));
    }
  }

  predicate Takes(v: Verdict, k: string)
  {
    v.Accept? && v.key == k
  }

  /** The position of the first verdict that offers something for `k`, or
      `|vs|` if none does. */
  function FirstAccept(vs: seq<Verdict>, k: string): (i: nat)
    ensures i <= |vs|
    ensures forall j :: 0 <= j < i ==> !Takes(vs[j], k)
    ensures i < |vs| ==> Takes(vs[i], k)
  {
    if vs == [] then 0
    else if Takes(vs[0], k) then 0
    else
      var i := FirstAccept(vs[1..], k);
      assert forall j :: 1 <= j < i + 1 ==> vs[j] == vs[1..][j - 1];
      i + 1
  }

  /** The first offer is determined by where it stands. */
  lemma FirstAcceptAt(vs: seq<Verdict>, k: string, i: nat)
    requires i <= |vs|
    requires forall j :: 0 <= j < i ==> !Takes(vs[j], k)
    requires i < |vs| ==> Takes(vs[i], k)
    ensures FirstAccept(vs, k) == i
  {
  }

  /** The first offer wins: a key is in the dictionary exactly when it was
      there before or some verdict offers it, and then it holds what it held
      before or the target of the first offer. */
  lemma {:induction false} ApplyIsFirstAccept(vs: seq<Verdict>, m: PathMap, k: string)
    requires ValidMap(m)
    ensures k in Apply(vs, m).values <==> k in m.values || FirstAccept(vs, k) < |vs|
    ensures k !in m.values && FirstAccept(vs, k) < |vs| ==>
      Apply(vs, m).values[k] == vs[FirstAccept(vs, k)].target
    decreases |vs|
  {
    if vs != [] {
      var init, v := vs[..|vs| - 1], vs[|vs| - 1];
      ApplyIsFirstAccept(init, m, k);
      var f := FirstAccept(init, k);
      assert Apply(vs, m) == Step(v, Apply(init, m));
      assert forall j :: 0 <= j < |init| ==> vs[j] == init[j];
      if f < |init| {
        FirstAcceptAt(vs, k, f);
      } else if Takes(v, k) {
        FirstAcceptAt(vs, k, |init|);
      } else {
        FirstAcceptAt(vs, k, |vs|);
      }
    }
  }

  /** The verdicts on the candidates `cs`, in order. */
  function Judgements(fs: Tree, cwd: Path, cs: seq<Candidate>): (vs: seq<Verdict>)
    requires IsNormal(cwd)
    ensures |vs| == |cs|
    decreases |cs|
  {
    if cs == [] then [] else Judgements(fs, cwd, cs[..|cs| - 1]) + [Judge(fs, cwd, cs[|cs| - 1])]
  }

  lemma JudgementsSnoc(fs: Tree, cwd: Path, cs: seq<Candidate>, c: Candidate)
    requires IsNormal(cwd)
    ensures Judgements(fs, cwd, cs + [c]) == Judgements(fs, cwd, cs) + [Judge(fs, cwd, c)]
  {
    assert (cs + [c])[..|cs|] == cs;
  }

  lemma {:induction false} JudgementAt(fs: Tree, cwd: Path, cs: seq<Candidate>, i: nat)
    requires IsNormal(cwd) && i < |cs|
    ensures Judgements(fs, cwd, cs)[i] == Judge(fs, cwd, cs[i])
    decreases |cs|
  {
    if i < |cs| - 1 {
      JudgementAt(fs, cwd, cs[..|cs| - 1], i);
    }
  }

  lemma JudgementsAppend(fs: Tree, cwd: Path, xs: seq<Candidate>, ys: seq<Candidate>)
    requires IsNormal(cwd)
    ensures Judgements(fs, cwd, xs + ys) == Judgements(fs, cwd, xs) + Judgements(fs, cwd, ys)
  {
    var l, r := Judgements(fs, cwd, xs + ys), Judgements(fs, cwd, xs) + Judgements(fs, cwd, ys);
    forall i | 0 <= i < |xs + ys| ensures l[i] == r[i] {
      JudgementAt(fs, cwd, xs + ys, i);
      if i < |xs| {
        JudgementAt(fs, cwd, xs, i);
      } else {
        JudgementAt(fs, cwd, ys, i - |xs|);
      }
    }
  }

  /** `all_paths` after the loop of `_merge_source_directory` has considered
      the candidates `cs`, in order, starting from `m`. */
  function Fold(fs: Tree, cwd: Path, cs: seq<Candidate>, m: PathMap): (r: PathMap)
    requires IsNormal(cwd) && ValidMap(m)
    ensures ValidMap(r)
    // "don't bother stat'ing paths that are already in": they keep their value
    ensures forall k :: k in m.values ==> k in r.values && r.values[k] == m.values[k]
  {
    Apply(Judgements(fs, cwd, cs), m)
  }

  /** The first accepted candidate wins: `k` is added exactly when some
      candidate is accepted for it, and it then holds the canonical path of
      the first such candidate; no candidate before that one is accepted for
      `k`. A key already in the dictionary is never overwritten. */
  lemma FoldIsFirstClaim(fs: Tree, cwd: Path, cs: seq<Candidate>, m: PathMap, k: string)
    requires IsNormal(cwd) && ValidMap(m)
    ensures ValidMap(Fold(fs, cwd, cs, m))
    ensures k in m.values ==> k in Fold(fs, cwd, cs, m).values && Fold(fs, cwd, cs, m).values[k] == m.values[k]
    ensures var f := FirstAccept(Judgements(fs, cwd, cs), k);
      && (k in Fold(fs, cwd, cs, m).values <==> k in m.values || f < |cs|)
      && (forall j :: 0 <= j < f ==> !Takes(Judge(fs, cwd, cs[j]), k))
      && (f < |cs| ==> Judge(fs, cwd, cs[f]) == Accept(k, Canonical(fs, cwd, cs[f])))
      && (f < |cs| && k !in m.values ==> Fold(fs, cwd, cs, m).values[k] == Canonical(fs, cwd, cs[f]))
  {
    var vs := Judgements(fs, cwd, cs);
    ApplyIsFirstAccept(vs, m, k);
    var f := FirstAccept(vs, k);
    forall j | 0 <= j < f ensures !Takes(Judge(fs, cwd, cs[j]), k) {
      JudgementAt(fs, cwd, cs, j);
    }
    if f < |cs| {
      JudgementAt(fs, cwd, cs, f);
    }
  }

  /** Every value the fold adds is the canonical path of a regular file, and
      never an empty file under a name ending in `__init__.py`. */
  lemma FoldAddsFiles(fs: Tree, cwd: Path, cs: seq<Candidate>, m: PathMap)
    requires IsNormal(cwd) && ValidMap(m)
    ensures forall k :: k in Fold(fs, cwd, cs, m).values && k !in m.values ==>
      && IsFile(fs, Fold(fs, cwd, cs, m).values[k])
      && !(EndsWith(k, "__init__.py") && Stat(fs, Fold(fs, cwd, cs, m).values[k]) == Ok(File(0)))
  {
    forall k | k in Fold(fs, cwd, cs, m).values && k !in m.values
      ensures IsFile(fs, Fold(fs, cwd, cs, m).values[k])
      ensures !(EndsWith(k, "__init__.py") && Stat(fs, Fold(fs, cwd, cs, m).values[k]) == Ok(File(0)))
    {
      FoldIsFirstClaim(fs, cwd, cs, m, k);
    }
  }

  /** Folding a concatenation is folding one part after the other. */
  lemma FoldAppend(fs: Tree, cwd: Path, xs: seq<Candidate>, ys: seq<Candidate>, m: PathMap)
    requires IsNormal(cwd) && ValidMap(m)
    ensures Fold(fs, cwd, xs + ys, m) == Fold(fs, cwd, ys, Fold(fs, cwd, xs, m))
  {
    JudgementsAppend(fs, cwd, xs, ys);
    ApplyAppend(Judgements(fs, cwd, xs), Judgements(fs, cwd, ys), m);
  }

  /** A candidate that is skipped (an empty path, a canonical path that is not
      a regular file or has vanished, an empty `__init__.py`) leaves the
      dictionary exactly as it would be without it. */
  lemma SkippedInvisible(fs: Tree, cwd: Path, xs: seq<Candidate>, c: Candidate, ys: seq<Candidate>, m: PathMap)
    requires IsNormal(cwd) && ValidMap(m) && Judge(fs, cwd, c) == Skip
    ensures Fold(fs, cwd, xs + [c] + ys, m) == Fold(fs, cwd, xs + ys, m)
  {
    FoldAppend(fs, cwd, xs + [c], ys, m);
    FoldAppend(fs, cwd, xs, [c], m);
    assert Judgements(fs, cwd, [c]) == [Skip];
    assert Apply([Skip], Fold(fs, cwd, xs, m)) == Step(Skip, Apply([], Fold(fs, cwd, xs, m)));
    FoldAppend(fs, cwd, xs, ys, m);
  }

  /** An empty `__init__.py`, and an empty path, are always skipped. */
  lemma EmptyInitSkipped(fs: Tree, cwd: Path, c: Candidate)
    requires IsNormal(cwd)
    requires c.path != "" ==> EndsWith(Relative(cwd, c), "__init__.py") && Stat(fs, Canonical(fs, cwd, c)) == Ok(File(0))
    ensures Judge(fs, cwd, c) == Skip
  {
  }

  lemma LastOfSuffix(s: string, suffix: string)
    requires EndsWith(s, suffix) && |suffix| > 0
    ensures s[|s| - 1] == suffix[|suffix| - 1]
  {
    assert s[|s| - |suffix|..][|suffix| - 1] == s[|s| - 1];
  }

  /** The `__init__.py` rule is a test on the name: it does not cover a stub
      `__init__.pyi`, which is accepted whenever it is a regular file, empty
      or not. */
  lemma StubsAreNotExempt(fs: Tree, cwd: Path, c: Candidate)
    requires IsNormal(cwd) && c.path != "" && EndsWith(Relative(cwd, c), ".pyi")
    ensures Judge(fs, cwd, c).Accept? <==> IsFile(fs, Canonical(fs, cwd, c))
  {
    var r := Relative(cwd, c);
    LastOfSuffix(r, ".pyi");
    assert !EndsWith(r, "__init__.py") by {
      assert |r| >= 11 ==> r[|r| - 11..][10] == r[|r| - 1];
    }
  }

  lemma ApplyEitherOrder(xs: seq<Verdict>, ys: seq<Verdict>, k: string)
    requires FirstAccept(xs, k) == |xs| && FirstAccept(ys, k) < |ys|
    ensures k in Apply(xs + ys, Empty()).values && k in Apply(ys + xs, Empty()).values
    ensures Apply(xs + ys, Empty()).values[k] == ys[FirstAccept(ys, k)].target
    ensures Apply(ys + xs, Empty()).values[k] == ys[FirstAccept(ys, k)].target
  {
    FirstAcceptAfter(xs, ys, k);
    FirstAcceptBefore(ys, xs, k);
    ApplyIsFirstAccept(xs + ys, Empty(), k);
    ApplyIsFirstAccept(ys + xs, Empty(), k);
    assert (xs + ys)[|xs| + FirstAccept(ys, k)] == ys[FirstAccept(ys, k)];
    assert (ys + xs)[FirstAccept(ys, k)] == ys[FirstAccept(ys, k)];
  }

  lemma FirstAcceptAfter(xs: seq<Verdict>, ys: seq<Verdict>, k: string)
    requires FirstAccept(xs, k) == |xs|
    ensures FirstAccept(xs + ys, k) == |xs| + FirstAccept(ys, k)
  {
    var f, a := FirstAccept(ys, k), xs + ys;
    forall j | 0 <= j < |xs| + f ensures !Takes(a[j], k) {
      if j < |xs| { assert a[j] == xs[j]; } else { assert a[j] == ys[j - |xs|]; }
    }
    if f < |ys| {
      assert a[|xs| + f] == ys[f];
    }
    FirstAcceptAt(a, k, |xs| + f);
  }

  lemma FirstAcceptBefore(ys: seq<Verdict>, xs: seq<Verdict>, k: string)
    requires FirstAccept(ys, k) < |ys|
    ensures FirstAccept(ys + xs, k) == FirstAccept(ys, k)
  {
    var f, b := FirstAccept(ys, k), ys + xs;
    forall j | 0 <= j < f ensures !Takes(b[j], k) {
      assert b[j] == ys[j];
    }
    assert b[f] == ys[f];
    FirstAcceptAt(b, k, f);
  }

  /** If no candidate of `xs` is accepted for `k` and some candidate of `ys`
      is, `k` ends up with the same file whichever list comes first: the
      first one `ys` accepts. */
  lemma EitherOrder(fs: Tree, cwd: Path, xs: seq<Candidate>, ys: seq<Candidate>, k: string)
    requires IsNormal(cwd)
    requires FirstAccept(Judgements(fs, cwd, xs), k) == |xs|
    requires FirstAccept(Judgements(fs, cwd, ys), k) < |ys|
    ensures k in Fold(fs, cwd, xs + ys, Empty()).values && k in Fold(fs, cwd, ys + xs, Empty()).values
    ensures Fold(fs, cwd, xs + ys, Empty()).values[k] == Fold(fs, cwd, ys + xs, Empty()).values[k]
    ensures Fold(fs, cwd, xs + ys, Empty()).values[k] ==
      Canonical(fs, cwd, ys[FirstAccept(Judgements(fs, cwd, ys), k)])
  {
    var vx, vy := Judgements(fs, cwd, xs), Judgements(fs, cwd, ys);
    JudgementsAppend(fs, cwd, xs, ys);
    JudgementsAppend(fs, cwd, ys, xs);
    ApplyEitherOrder(vx, vy, k);
    var f := FirstAccept(vy, k);
    JudgementAt(fs, cwd, ys, f);
  }

  /** Directory A holds an empty `pkg/__init__.py` and B a non-empty one:
      whichever directory is merged first, the slot goes to B's file. */
  lemma InitConflict(fs: Tree, cwd: Path, a: Candidate, b: Candidate)
    requires IsNormal(cwd) && a.path != "" && b.path != ""
    requires Relative(cwd, a) == Relative(cwd, b) && EndsWith(Relative(cwd, a), "__init__.py")
    requires Stat(fs, Canonical(fs, cwd, a)) == Ok(File(0))
    requires Stat(fs, Canonical(fs, cwd, b)).Ok? && Stat(fs, Canonical(fs, cwd, b)).value.File?
    requires Stat(fs, Canonical(fs, cwd, b)).value.size > 0
    ensures Relative(cwd, a) in Fold(fs, cwd, [a, b], Empty()).values
    ensures Relative(cwd, a) in Fold(fs, cwd, [b, a], Empty()).values
    ensures Fold(fs, cwd, [a, b], Empty()).values[Relative(cwd, a)] == Canonical(fs, cwd, b)
    ensures Fold(fs, cwd, [b, a], Empty()).values[Relative(cwd, a)] == Canonical(fs, cwd, b)
  {
    var k := Relative(cwd, a);
    EmptyInitSkipped(fs, cwd, a);
    NonEmptyFileAccepted(fs, cwd, b);
    JudgementsSnoc(fs, cwd, [], a);
    JudgementsSnoc(fs, cwd, [], b);
    assert [] + [a] == [a] && [] + [b] == [b];
    FirstAcceptAt(Judgements(fs, cwd, [a]), k, 1);
    FirstAcceptAt(Judgements(fs, cwd, [b]), k, 0);
    EitherOrder(fs, cwd, [a], [b], k);
    assert [a] + [b] == [a, b] && [b] + [a] == [b, a];
  }

  /** A path that resolves to a non-empty regular file is accepted. */
  lemma NonEmptyFileAccepted(fs: Tree, cwd: Path, c: Candidate)
    requires IsNormal(cwd) && c.path != ""
    requires Stat(fs, Canonical(fs, cwd, c)).Ok? && Stat(fs, Canonical(fs, cwd, c)).value.File?
    requires Stat(fs, Canonical(fs, cwd, c)).value.size > 0
    ensures Judge(fs, cwd, c) == Accept(Relative(cwd, c), Canonical(fs, cwd, c))
  {
  }

  /** `_find_python_paths(source_directory)`, given what `find` does for each root. */
  function Discover(cwd: Path, sd: string, find: string -> ProcessOutcome): (r: Result<seq<string>, Error>)
    requires IsNormal(cwd)
    // `find` runs on the absolute path of the directory; a listing is never empty
    ensures var o := find(PathString(AbsPath(cwd, sd))); r.Ok? <==> o.Exited? && o.code == 0
    ensures r.Ok? ==> |r.value| >= 1
  {
    FindPythonPaths(find(PathString(AbsPath(cwd, sd))))
  }

  /** `_find_python_paths` for every source directory, given `find`. */
  function Lister(cwd: Path, find: string -> ProcessOutcome): string -> Result<seq<string>, Error>
    requires IsNormal(cwd)
  {
    sd => Discover(cwd, sd, find)
  }

  /** All candidates of the source directories `dirs`, directory by directory,
      where `list` gives each directory's listing; the first directory whose
      listing fails stops the merge. */
  function DiscoverAll(dirs: seq<string>, list: string -> Result<seq<string>, Error>): (r: Result<seq<Candidate>, Error>)
    // every candidate was listed under one of the requested directories
    ensures r.Ok? ==> forall c :: c in r.value ==> c.directory in dirs
    decreases |dirs|
  {
    if dirs == [] then Ok([])
    else
      var init, sd := dirs[..|dirs| - 1], dirs[|dirs| - 1];
      match DiscoverAll(init, list)
      case Err(e) => Err(e)
      case Ok(cs) =>
        match list(sd)
        case Err(e) => Err(e)
        case Ok(ps) => Ok(cs + Tag(sd, ps))
  }

  /** The listing of all directories succeeds exactly when each directory's does. */
  lemma {:induction false} DiscoverAllSucceeds(dirs: seq<string>, list: string -> Result<seq<string>, Error>)
    ensures DiscoverAll(dirs, list).Ok? <==> forall i :: 0 <= i < |dirs| ==> list(dirs[i]).Ok?
    decreases |dirs|
  {
    if dirs != [] {
      var init := dirs[..|dirs| - 1];
      DiscoverAllSucceeds(init, list);
      assert forall i :: 0 <= i < |init| ==> init[i] == dirs[i];
    }
  }

  /** The first directory whose listing fails decides the exception. */
  lemma {:induction false} DiscoverAllFails(dirs: seq<string>, list: string -> Result<seq<string>, Error>, i: nat)
    requires i < |dirs|
    requires forall j :: 0 <= j < i ==> list(dirs[j]).Ok?
    requires list(dirs[i]).Err?
    ensures DiscoverAll(dirs, list) == Err(list(dirs[i]).error)
    decreases |dirs|
  {
    var init := dirs[..|dirs| - 1];
    assert forall j :: 0 <= j < |init| ==> init[j] == dirs[j];
    if i < |init| {
      DiscoverAllFails(init, list, i);
    } else {
      DiscoverAllSucceeds(init, list);
    }
  }

  /** Once a prefix of the directories fails, the whole listing fails the same way. */
  lemma {:induction false} DiscoverPrefixFails(dirs: seq<string>, list: string -> Result<seq<string>, Error>, i: nat)
    requires i <= |dirs| && DiscoverAll(dirs[..i], list).Err?
    ensures DiscoverAll(dirs, list) == DiscoverAll(dirs[..i], list)
    decreases |dirs| - i
  {
    if i < |dirs| {
      assert dirs[..i + 1][..i] == dirs[..i];
      DiscoverPrefixFails(dirs, list, i + 1);
    } else {
      assert dirs[..i] == dirs;
    }
  }

  /** Every path listed under every directory is among the candidates. */
  lemma {:induction false} DiscoverAllHolds(dirs: seq<string>, list: string -> Result<seq<string>, Error>, i: nat, p: string)
    requires DiscoverAll(dirs, list).Ok? && i < |dirs|
    requires list(dirs[i]).Ok? && p in list(dirs[i]).value
    ensures Candidate(dirs[i], p) in DiscoverAll(dirs, list).value
    decreases |dirs|
  {
    var init, sd := dirs[..|dirs| - 1], dirs[|dirs| - 1];
    var cs := DiscoverAll(init, list).value;
    var ps := list(sd).value;
    assert DiscoverAll(dirs, list).value == cs + Tag(sd, ps);
    if i < |init| {
      assert init[i] == dirs[i];
      DiscoverAllHolds(init, list, i, p);
    } else {
      var j :| 0 <= j < |ps| && ps[j] == p;
      assert Tag(sd, ps)[j] == Candidate(sd, p);
    }
  }

  /** The dictionary `_merge` builds before it creates any link. */
  function MergeMapping(fs: Tree, cwd: Path, dirs: seq<string>, list: string -> Result<seq<string>, Error>): (r: Result<PathMap, Error>)
    requires IsNormal(cwd)
    ensures r.Ok? <==> DiscoverAll(dirs, list).Ok?
    ensures r.Ok? ==> ValidMap(r.value)
  {
    match DiscoverAll(dirs, list)
    case Err(e) => Err(e)
    case Ok(cs) => Ok(Fold(fs, cwd, cs, Empty()))
  }

  /** One turn of the loop, branch by branch as the loop body takes them. */
  lemma Turn(fs: Tree, cwd: Path, c: Candidate, m: PathMap)
    requires IsNormal(cwd) && ValidMap(m)
    ensures c.path == "" ==> Step(Judge(fs, cwd, c), m) == m
    ensures c.path != "" ==>
      var relative, absolute := RelPath(cwd, c.path, c.directory).value, Realpath(fs, cwd, c.path);
      Step(Judge(fs, cwd, c), m) ==
        if relative in m.values || !IsFile(fs, absolute) then m
        else if EndsWith(relative, "__init__.py") && IsEmpty(fs, absolute) == Ok(true) then m
        else Insert(m, relative, absolute)
  {
  }

  /** `_merge_source_directory(source_directory, all_paths)`: lists the
      directory with `list` (`_find_python_paths`, see `Lister`), then updates
      the dictionary path by path. */
  method MergeSourceDirectory(fs: Tree, cwd: Path, sd: string, list: string -> Result<seq<string>, Error>, allPaths: PathMap)
    returns (r: Result<PathMap, Error>)
    requires IsNormal(cwd) && ValidMap(allPaths)
    ensures list(sd).Err? ==> r == Err(list(sd).error)
    ensures list(sd).Ok? ==> r == Ok(Fold(fs, cwd, Tag(sd, list(sd).value), allPaths))
  {
    var found := list(sd);
    if found.Err? {
      return Err(found.error);
    }
    var paths := found.value;
    var current := allPaths;
    for i := 0 to |paths|
      invariant ValidMap(current)
      invariant current == Fold(fs, cwd, Tag(sd, paths[..i]), allPaths)
    {
      var path := paths[i];
      var c := Candidate(sd, path);
      assert Tag(sd, paths[..i + 1]) == Tag(sd, paths[..i]) + [c];
      JudgementsSnoc(fs, cwd, Tag(sd, paths[..i]), c);
      ApplySnoc(Judgements(fs, cwd, Tag(sd, paths[..i])), Judge(fs, cwd, c), allPaths);
      Turn(fs, cwd, c, current);
      if path == "" {
        continue;
      }
      var relative := RelPath(cwd, path, sd).value;
      if relative in current.values {
        continue;
      }
      var absolute := Realpath(fs, cwd, path);
      if !IsFile(fs, absolute) {
        continue;
      }
      if EndsWith(relative, "__init__.py") && IsEmpty(fs, absolute) == Ok(true) {
        continue;
      }
      current := Insert(current, relative, absolute);
    }
    assert paths[..|paths|] == paths;
    return Ok(current);
  }

  /** The dictionary of `_merge`: `_merge_source_directory` for each source
      directory in turn, all filling the same dictionary. */
  method MergeSourceDirectories(fs: Tree, cwd: Path, dirs: seq<string>, list: string -> Result<seq<string>, Error>)
    returns (r: Result<PathMap, Error>)
    requires IsNormal(cwd)
    ensures DiscoverAll(dirs, list).Err? ==> r == Err(DiscoverAll(dirs, list).error)
    ensures DiscoverAll(dirs, list).Ok? ==> r == Ok(Fold(fs, cwd, DiscoverAll(dirs, list).value, Empty()))
  {
    var allPaths := Empty();
    ghost var cs: seq<Candidate> := [];
    for i := 0 to |dirs|
      invariant DiscoverAll(dirs[..i], list) == Ok(cs)
      invariant ValidMap(allPaths) && allPaths == Fold(fs, cwd, cs, Empty())
    {
      assert dirs[..i + 1][..i] == dirs[..i];
      var merged := MergeSourceDirectory(fs, cwd, dirs[i], list, allPaths);
      if merged.Err? {
        DiscoverPrefixFails(dirs, list, i + 1);
        return Err(merged.error);
      }
      FoldAppend(fs, cwd, cs, Tag(dirs[i], list(dirs[i]).value), Empty());
      cs := cs + Tag(dirs[i], list(dirs[i]).value);
      allPaths := merged.value;
    }
    assert dirs[..|dirs|] == dirs;
    return Ok(allPaths);
  }

  // ---- The loop as written: `relpath` before the empty-path test ----

  /** One turn of the loop in the order the statements are written: `relpath`
      runs first and raises `ValueError` on an empty path, so the `if not path`
      test after it never fires. */
  function ConsiderAsWritten(fs: Tree, cwd: Path, c: Candidate, m: PathMap): (r: Result<PathMap, Error>)
    requires IsNormal(cwd) && ValidMap(m)
    ensures r.Ok? ==> ValidMap(r.value)
  {
    match RelPath(cwd, c.path, c.directory)
    case Err(e) => Err(e)
    case Ok(relative) =>
      if c.path == "" then Ok(m)
      else if relative in m.values then Ok(m)
      else Ok(Step(Judge(fs, cwd, c), m))
  }

  /** Each turn as written raises on an empty path and otherwise agrees with `Step`. */
  lemma TurnAsWritten(fs: Tree, cwd: Path, c: Candidate, m: PathMap)
    requires IsNormal(cwd) && ValidMap(m)
    ensures ConsiderAsWritten(fs, cwd, c, m) ==
      if c.path == "" then Err(ValueError("no path specified")) else Ok(Step(Judge(fs, cwd, c), m))
  {
  }

  function FoldAsWritten(fs: Tree, cwd: Path, cs: seq<Candidate>, m: PathMap): (r: Result<PathMap, Error>)
    requires IsNormal(cwd) && ValidMap(m)
    ensures r.Ok? ==> ValidMap(r.value)
    decreases |cs|
  {
    if cs == [] then Ok(m)
    else
      match FoldAsWritten(fs, cwd, cs[..|cs| - 1], m)
      case Err(e) => Err(e)
      case Ok(before) => ConsiderAsWritten(fs, cwd, cs[|cs| - 1], before)
  }

  /** As written, the loop fails exactly when some listed path is empty, and
      it then raises `relpath`'s `ValueError`; otherwise it agrees with `Fold`. */
  lemma {:induction false} FoldAsWrittenRaises(fs: Tree, cwd: Path, cs: seq<Candidate>, m: PathMap)
    requires IsNormal(cwd) && ValidMap(m)
    ensures FoldAsWritten(fs, cwd, cs, m).Err? <==> exists i :: 0 <= i < |cs| && cs[i].path == ""
    ensures FoldAsWritten(fs, cwd, cs, m).Err? ==>
      FoldAsWritten(fs, cwd, cs, m).error == ValueError("no path specified")
    ensures FoldAsWritten(fs, cwd, cs, m).Ok? ==> FoldAsWritten(fs, cwd, cs, m).value == Fold(fs, cwd, cs, m)
    decreases |cs|
  {
    if cs != [] {
      var init, c := cs[..|cs| - 1], cs[|cs| - 1];
      assert cs == init + [c];
      FoldAsWrittenRaises(fs, cwd, init, m);
      HasEmptySnoc(init, c);
      var before := FoldAsWritten(fs, cwd, init, m);
      if before.Ok? {
        TurnAsWritten(fs, cwd, c, before.value);
        FoldSnoc(fs, cwd, init, c, m);
      }
    }
  }

  lemma FoldSnoc(fs: Tree, cwd: Path, init: seq<Candidate>, c: Candidate, m: PathMap)
    requires IsNormal(cwd) && ValidMap(m)
    ensures Fold(fs, cwd, init + [c], m) == Step(Judge(fs, cwd, c), Fold(fs, cwd, init, m))
  {
    JudgementsSnoc(fs, cwd, init, c);
    ApplySnoc(Judgements(fs, cwd, init), Judge(fs, cwd, c), m);
  }

  lemma HasEmptySnoc(init: seq<Candidate>, c: Candidate)
    ensures (exists i :: 0 <= i < |init + [c]| && (init + [c])[i].path == "") <==>
      (exists i :: 0 <= i < |init| && init[i].path == "") || c.path == ""
  {
    if exists i :: 0 <= i < |init| && init[i].path == "" {
      var i :| 0 <= i < |init| && init[i].path == "";
      assert (init + [c])[i].path == "";
    }
    if c.path == "" {
      assert (init + [c])[|init|].path == "";
    }
  }

  /** A source directory in which `find` lists nothing: the corrected loop
      adds nothing, while the loop as written raises. */
  lemma EmptyDirectoryRaises(fs: Tree, cwd: Path, sd: string, out: string, m: PathMap)
    requires IsNormal(cwd) && ValidMap(m) && Strip(out) == ""
    ensures FindPythonPaths(Exited(0, out)) == Ok([""])
    ensures Fold(fs, cwd, Tag(sd, [""]), m) == m
    ensures FoldAsWritten(fs, cwd, Tag(sd, [""]), m) == Err(ValueError("no path specified"))
  {
    FindPrintsNothing(out);
    var c := Candidate(sd, "");
    assert Tag(sd, [""]) == [] + [c];
    JudgementsSnoc(fs, cwd, [], c);
    ApplySnoc([], Skip, m);
    TurnAsWritten(fs, cwd, c, m);
  }

  /** `_merge`'s dictionary as written: each source directory is listed and
      then scanned, before the next one is listed. */
  function MergeMappingAsWritten(fs: Tree, cwd: Path, dirs: seq<string>, list: string -> Result<seq<string>, Error>): (r: Result<PathMap, Error>)
    requires IsNormal(cwd)
    ensures r.Ok? ==> ValidMap(r.value)
    decreases |dirs|
  {
    if dirs == [] then Ok(Empty())
    else
      match MergeMappingAsWritten(fs, cwd, dirs[..|dirs| - 1], list)
      case Err(e) => Err(e)
      case Ok(m) =>
        match list(dirs[|dirs| - 1])
        case Err(e) => Err(e)
        case Ok(ps) => FoldAsWritten(fs, cwd, Tag(dirs[|dirs| - 1], ps), m)
  }

  /** Scanning a concatenation as written scans the first part, and the second
      only if the first raised nothing. */
  lemma {:induction false} FoldAsWrittenAppend(fs: Tree, cwd: Path, xs: seq<Candidate>, ys: seq<Candidate>, m: PathMap)
    requires IsNormal(cwd) && ValidMap(m)
    ensures FoldAsWritten(fs, cwd, xs + ys, m) ==
      (match FoldAsWritten(fs, cwd, xs, m)
       case Err(e) => Err(e)
       case Ok(b) => FoldAsWritten(fs, cwd, ys, b))
    decreases |ys|
  {
    if ys == [] {
      assert xs + ys == xs;
    } else {
      var init, c := ys[..|ys| - 1], ys[|ys| - 1];
      assert (xs + ys)[..|xs + ys| - 1] == xs + init;
      assert (xs + ys)[|xs + ys| - 1] == c;
      FoldAsWrittenAppend(fs, cwd, xs, init, m);
    }
  }

  /** When every listing succeeds, the merge as written is the scan as written
      of all candidates in order. */
  lemma {:induction false} MergeAsWrittenAllListed(fs: Tree, cwd: Path, dirs: seq<string>, list: string -> Result<seq<string>, Error>)
    requires IsNormal(cwd) && DiscoverAll(dirs, list).Ok?
    ensures MergeMappingAsWritten(fs, cwd, dirs, list) == FoldAsWritten(fs, cwd, DiscoverAll(dirs, list).value, Empty())
    decreases |dirs|
  {
    if dirs != [] {
      var init, sd := dirs[..|dirs| - 1], dirs[|dirs| - 1];
      MergeAsWrittenAllListed(fs, cwd, init, list);
      FoldAsWrittenAppend(fs, cwd, DiscoverAll(init, list).value, Tag(sd, list(sd).value), Empty());
    }
  }

  /** As written, a directory is scanned before the next is listed: a silent
      first directory raises `ValueError` although the second cannot be listed,
      where the corrected merge reports the second directory's error. */
  lemma ScannedBeforeNextListing(fs: Tree, cwd: Path, d1: string, d2: string, list: string -> Result<seq<string>, Error>)
    requires IsNormal(cwd) && list(d1) == Ok([""]) && list(d2).Err?
    ensures MergeMappingAsWritten(fs, cwd, [d1, d2], list) == Err(ValueError("no path specified"))
    ensures MergeMapping(fs, cwd, [d1, d2], list) == Err(list(d2).error)
  {
    assert [d1, d2][..1] == [d1] && [d1][..0] == [];
    var c := Candidate(d1, "");
    assert Tag(d1, [""]) == [c] && [c][..0] == [];
    TurnAsWritten(fs, cwd, c, Empty());
    assert FoldAsWritten(fs, cwd, [c], Empty()) == Err(ValueError("no path specified"));
    assert MergeMappingAsWritten(fs, cwd, [d1], list) == Err(ValueError("no path specified"));
    assert DiscoverAll([d1], list) == Ok([] + [c]);
  }

  /** When every listing succeeds but one directory's `find` prints nothing,
      the merge as written raises `ValueError`, where the corrected one
      succeeds. */
  lemma SilentDirectoryAsWritten(fs: Tree, cwd: Path, dirs: seq<string>, find: string -> ProcessOutcome, i: nat)
    requires IsNormal(cwd) && i < |dirs|
    requires forall j :: 0 <= j < |dirs| ==> Discover(cwd, dirs[j], find).Ok?
    requires find(PathString(AbsPath(cwd, dirs[i]))).Exited?
    requires Strip(find(PathString(AbsPath(cwd, dirs[i]))).stdout) == ""
    ensures MergeMapping(fs, cwd, dirs, Lister(cwd, find)).Ok?
    ensures MergeMappingAsWritten(fs, cwd, dirs, Lister(cwd, find)) == Err(ValueError("no path specified"))
  {
    var o := find(PathString(AbsPath(cwd, dirs[i])));
    FindPrintsNothing(o.stdout);
    assert Lister(cwd, find)(dirs[i]) == Ok([""]);
    DiscoverAllSucceeds(dirs, Lister(cwd, find));
    DiscoverAllHolds(dirs, Lister(cwd, find), i, "");
    var cs := DiscoverAll(dirs, Lister(cwd, find)).value;
    var j :| 0 <= j < |cs| && cs[j] == Candidate(dirs[i], "");
    MergeAsWrittenAllListed(fs, cwd, dirs, Lister(cwd, find));
    FoldAsWrittenRaises(fs, cwd, cs, Empty());
  }
}
