/** The filesystem the merge engine works on, as a map from path to entry,
    and the results of the `os` calls it makes, as functions of that map. */
module FileTree {
  import opened Text
  import opened Outcomes
  import opened Paths

  /** What a path names. `Manifest` is a regular file holding a JSON list of
      strings, kept decoded; every other regular file is a `File` of some size. */
  datatype Node = File(size: nat) | Manifest(tracked: set<string>) | Dir | Symlink(target: string)

  type Tree = map<Path, Node>

  predicate IsRegular(n: Node)
  {
    n.File? || n.Manifest?
  }

  function Parent(p: Path): Path
    requires |p| > 0
  {
    p[..|p| - 1]
  }

  /** Every entry lies in a directory: its parent is `/` or a `Dir` entry.
      `/` itself is not a key. */
  ghost predicate WellFormed(fs: Tree)
  {
    && [] !in fs
    && forall q :: q in fs && |q| > 1 ==> Parent(q) in fs && fs[Parent(q)].Dir?
  }

  /** `q` lies strictly below `root`. */
  predicate Below(root: Path, q: Path)
  {
    |q| > |root| && q[..|root|] == root
  }

  /** What a sequence of `os` calls left behind: the tree, and the exception
      that stopped it, if one did. */
  datatype Effect = Effect(fs: Tree, error: Option<Error>)

  /** The outcome of looking a path up: where the symlinks led, and whether the
      walk gave up on a loop. */
  datatype Walk = Walk(path: Path, looped: bool)

  /** Resolves the raw names `rest` below the already resolved `prefix`, one
      component at a time, as `os.path.realpath` does: a symlink is replaced by
      its target (absolute targets restart from `/`), `..` climbs, and after
      `fuel` symlink expansions the rest is left as it is, as for a loop. */
  function Resolve(fs: Tree, prefix: Path, rest: seq<Name>, fuel: nat): Walk
    decreases fuel, |rest|
  {
    if |rest| == 0 then Walk(prefix, false)
    else
      var n := rest[0];
      if n == "" || n == "." then Resolve(fs, prefix, rest[1..], fuel)
      else if n == ".." then
        Resolve(fs, if |prefix| > 0 then prefix[..|prefix| - 1] else prefix, rest[1..], fuel)
      else
        var q := prefix + [n];
        if q in fs && fs[q].Symlink? then
          if fuel == 0 then Walk(q + rest[1..], true)
          else
            var t := fs[q].target;
            Resolve(fs, if IsAbsolute(t) then [] else prefix, SplitOn(t, '/') + rest[1..], fuel - 1)
        else Resolve(fs, q, rest[1..], fuel)
  }

  /** `os.path.realpath(s)`; symlink chains are followed for at most |fs| expansions. */
  function Realpath(fs: Tree, cwd: Path, s: string): Path
  {
    Resolve(fs, if IsAbsolute(s) then [] else cwd, SplitOn(s, '/'), |fs|).path
  }

  /** `os.stat(p)`, which follows symlinks. */
  function Stat(fs: Tree, p: Path): (r: Result<Node, Errno>)
    ensures r.Ok? ==> !r.value.Symlink?
  {
    var w := Resolve(fs, [], p, |fs|);
    if w.looped then Err(ELOOP)
    else if w.path !in fs then Err(ENOENT)
    else if fs[w.path].Symlink? then Err(ELOOP)
    else Ok(fs[w.path])
  }

  /** `os.path.isfile(p)`: `stat` succeeds and finds a regular file. */
  predicate IsFile(fs: Tree, p: Path)
  {
    Stat(fs, p).Ok? && IsRegular(Stat(fs, p).value)
  }

  /** `is_empty(p)`: the size of the file is 0, and a missing file is not empty;
      any other `stat` failure propagates. Directories count as non-empty. */
  function IsEmpty(fs: Tree, p: Path): (r: Result<bool, Errno>)
    ensures Stat(fs, p) == Err(ENOENT) ==> r == Ok(false)
    ensures r == Ok(true) <==> Stat(fs, p).Ok? && Stat(fs, p).value == File(0)
    ensures r.Err? <==> Stat(fs, p).Err? && Stat(fs, p).error != ENOENT
  {
    match Stat(fs, p)
    case Ok(File(size)) => Ok(size == 0)
    case Ok(_) => Ok(false)
    case Err(ENOENT) => Ok(false)
    case Err(e) => Err(e)
  }

  /** Whether `mkdir`, `symlink` and `open` may create `p`: its parent must be
      `/` or a directory entry. Otherwise the directories on the way are looked
      up from the top: the first that is missing gives `ENOENT`, the first
      that is no directory `ENOTDIR`. Symlinks are not followed here. */
  function ParentCheck(fs: Tree, p: Path): (r: Option<Errno>)
    requires |p| > 0
    ensures r.None? <==> |p| == 1 || (Parent(p) in fs && fs[Parent(p)].Dir?)
    ensures r == None || r == Some(ENOENT) || r == Some(ENOTDIR)
    decreases |p|
  {
    if |p| == 1 then None
    else if Parent(p) in fs then (if fs[Parent(p)].Dir? then None else Some(ENOTDIR))
    else if ParentCheck(fs, Parent(p)).Some? then ParentCheck(fs, Parent(p))
    else Some(ENOENT)
  }

  /** `os.mkdir(p)`. */
  function Mkdir(fs: Tree, p: Path): (r: Result<Tree, Errno>)
    ensures r.Ok? ==> p !in fs && r.value == fs[p := Dir]
    ensures r.Ok? <==> |p| > 0 && ParentCheck(fs, p).None? && p !in fs
  {
    if |p| == 0 then Err(EEXIST)
    else if ParentCheck(fs, p).Some? then Err(ParentCheck(fs, p).value)
    else if p in fs then Err(EEXIST)
    else Ok(fs[p := Dir])
  }

  /** `os.makedirs(p)`: creates the missing ancestors first (an `EEXIST` among
      them is ignored, any other failure stops it), then `p` itself. */
  function MakeDirs(fs: Tree, p: Path): (r: (Tree, Option<Errno>))
    // no reported failure means that `p` was created and is a directory
    ensures r.1.None? ==> p in r.0 && r.0[p] == Dir
    decreases |p|
  {
    if |p| == 0 then (fs, Some(EEXIST))
    else
      var head := Parent(p);
      var up := if |head| > 0 && head !in fs then MakeDirs(fs, head) else (fs, None);
      if up.1.Some? && up.1.value != EEXIST then up
      else
        match Mkdir(up.0, p)
        case Ok(t) => (t, None)
        case Err(e) => (up.0, Some(e))
  }

  /** `os.symlink(target, p)`. */
  function MakeLink(fs: Tree, target: string, p: Path): (r: Result<Tree, Errno>)
    ensures r.Ok? <==> |p| > 0 && ParentCheck(fs, p).None? && p !in fs
    ensures r.Ok? ==> r.value == fs[p := Symlink(target)]
    ensures r == Err(EEXIST) <==> |p| == 0 || (ParentCheck(fs, p).None? && p in fs)
  {
    if |p| == 0 then Err(EEXIST)
    else if ParentCheck(fs, p).Some? then Err(ParentCheck(fs, p).value)
    else if p in fs then Err(EEXIST)
    else Ok(fs[p := Symlink(target)])
  }

  /** `os.unlink(p)` and `os.remove(p)`: removes anything but a directory. */
  function Unlink(fs: Tree, p: Path): (r: Result<Tree, Errno>)
    ensures r.Ok? <==> p in fs && !fs[p].Dir? && |p| > 0 && ParentCheck(fs, p).None?
    ensures r.Ok? ==> r.value == fs - {p}
  {
    if |p| == 0 then Err(EISDIR)
    else if ParentCheck(fs, p).Some? then Err(ParentCheck(fs, p).value)
    else if p !in fs then Err(ENOENT)
    else if fs[p].Dir? then Err(EISDIR)
    else Ok(fs - {p})
  }

  /** `shutil.rmtree(p)`: removes a directory and everything below it; refuses
      anything else. */
  function RmTree(fs: Tree, p: Path): (r: Result<Tree, Errno>)
    ensures r.Ok? <==> p in fs && fs[p].Dir?
    ensures r.Ok? ==> forall q :: q in r.value <==> q in fs && !(p <= q)
    ensures r.Ok? ==> forall q :: q in r.value ==> r.value[q] == fs[q]
  {
    if p !in fs then Err(ENOENT)
    else if !fs[p].Dir? then Err(ENOTDIR)
    else Ok(map q | q in fs && !(p <= q) :: fs[q])
  }

  /** `os.listdir(p)`: the names directly inside a directory. */
  function ListDir(fs: Tree, p: Path): (r: Result<set<Name>, Errno>)
    ensures r.Ok? <==> p in fs && fs[p].Dir?
    ensures r.Ok? ==> forall n :: n in r.value <==> p + [n] in fs
  {
    if p !in fs then Err(ENOENT)
    else if !fs[p].Dir? then Err(ENOTDIR)
    else
      var names := set q | q in fs && |q| == |p| + 1 && q[..|p|] == p :: q[|p|];
      assert forall n :: p + [n] in fs ==> n in names by {
        forall n | p + [n] in fs ensures n in names {
          var q := p + [n];
          assert |q| == |p| + 1 && q[..|p|] == p && q[|p|] == n;
        }
      }
      assert forall q :: q in fs && |q| == |p| + 1 && q[..|p|] == p ==> q == p + [q[|p|]];
      Ok(names)
  }

  /** `open(p, "w")` and `open(p, "w+")`: creates or truncates a regular file,
      which then holds `content`. */
  function Open(fs: Tree, p: Path, content: Node): (r: Result<Tree, Errno>)
    requires IsRegular(content)
    ensures r.Ok? <==> |p| > 0 && ParentCheck(fs, p).None? && !(p in fs && fs[p].Dir?)
    ensures r.Ok? ==> r.value == fs[p := content]
  {
    if |p| == 0 then Err(EISDIR)
    else if ParentCheck(fs, p).Some? then Err(ParentCheck(fs, p).value)
    else if p in fs && fs[p].Dir? then Err(EISDIR)
    else Ok(fs[p := content])
  }

  /** Reading the manifest: `json.load` of the file at `p` (following symlinks);
      `None` stands for the `OSError` or `JSONDecodeError` of a file that is
      missing, unreadable or holds no JSON list. */
  function ReadManifest(fs: Tree, p: Path): (r: Option<set<string>>)
    ensures r.Some? <==> Stat(fs, p).Ok? && Stat(fs, p).value.Manifest?
    ensures r.Some? ==> r.value == Stat(fs, p).value.tracked
  {
    match Stat(fs, p)
    case Ok(Manifest(t)) => Some(t)
    case _ => None
  }

  /** `makedirs` never changes an existing entry and adds only directories on
      the way to `p`. */
  lemma {:induction false} MakeDirsFrame(fs: Tree, p: Path)
    ensures forall q :: q in fs ==> q in MakeDirs(fs, p).0 && MakeDirs(fs, p).0[q] == fs[q]
    ensures forall q :: q in MakeDirs(fs, p).0 && q !in fs ==> MakeDirs(fs, p).0[q] == Dir && q <= p
    decreases |p|
  {
    if |p| > 0 {
      var head := Parent(p);
      if |head| > 0 && head !in fs {
        MakeDirsFrame(fs, head);
        assert head <= p;
      }
    }
  }

  /** `makedirs(p)` leaves `p` a directory when some ancestor at depth `b` is
      one already and nothing below it on the way to `p` is anything but a
      directory; it then reports no failure if `p` was missing. */
  lemma {:induction false} MakeDirsReaches(fs: Tree, p: Path, b: nat)
    requires 0 < b <= |p|
    requires p[..b] in fs && fs[p[..b]].Dir?
    requires forall j :: b < j <= |p| ==> p[..j] !in fs || fs[p[..j]].Dir?
    ensures p in MakeDirs(fs, p).0 && MakeDirs(fs, p).0[p].Dir?
    ensures p !in fs ==> MakeDirs(fs, p).1.None?
    decreases |p|
  {
    MakeDirsFrame(fs, p);
    assert p[..|p|] == p;
    if p !in fs {
      var head := Parent(p);
      assert b < |p|;
      assert head[..b] == p[..b];
      assert forall j :: b < j <= |head| ==> head[..j] == p[..j];
      if |head| > 0 && head !in fs {
        MakeDirsReaches(fs, head, b);
        MakeDirsFrame(fs, head);
      } else {
        assert head == p[..|p| - 1];
      }
    }
  }

  lemma MkdirWellFormed(fs: Tree, p: Path)
    requires WellFormed(fs) && Mkdir(fs, p).Ok?
    ensures WellFormed(Mkdir(fs, p).value)
  {
  }

  lemma {:induction false} MakeDirsWellFormed(fs: Tree, p: Path)
    requires WellFormed(fs)
    ensures WellFormed(MakeDirs(fs, p).0)
    decreases |p|
  {
    if |p| > 0 {
      var head := Parent(p);
      if |head| > 0 && head !in fs {
        MakeDirsWellFormed(fs, head);
      }
      var up := if |head| > 0 && head !in fs then MakeDirs(fs, head) else (fs, None);
      if Mkdir(up.0, p).Ok? {
        MkdirWellFormed(up.0, p);
      }
    }
  }

  lemma SymlinkWellFormed(fs: Tree, target: string, p: Path)
    requires WellFormed(fs) && MakeLink(fs, target, p).Ok?
    ensures WellFormed(MakeLink(fs, target, p).value)
  {
  }

  lemma UnlinkWellFormed(fs: Tree, p: Path)
    requires WellFormed(fs) && Unlink(fs, p).Ok?
    ensures WellFormed(Unlink(fs, p).value)
  {
    var r := Unlink(fs, p).value;
    forall q | q in r && |q| > 1 ensures Parent(q) in r {
      assert Parent(q) != p;
    }
  }

  lemma RmTreeWellFormed(fs: Tree, p: Path)
    requires WellFormed(fs) && RmTree(fs, p).Ok?
    ensures WellFormed(RmTree(fs, p).value)
  {
    var r := RmTree(fs, p).value;
    forall q | q in r && |q| > 1 ensures Parent(q) in r {
      assert p <= Parent(q) ==> p <= q;
    }
  }

  lemma OpenWellFormed(fs: Tree, p: Path, content: Node)
    requires WellFormed(fs) && IsRegular(content) && Open(fs, p, content).Ok?
    ensures WellFormed(Open(fs, p, content).value)
  {
    var r := Open(fs, p, content).value;
    forall q | q in r && |q| > 1 ensures Parent(q) in r && r[Parent(q)].Dir? {
      if q != p { assert Parent(q) != p; }
    }
  }

  /** Every proper ancestor of an entry is a directory entry. */
  lemma {:induction false} AncestorIsDir(fs: Tree, q: Path, k: nat)
    requires WellFormed(fs) && q in fs && 0 < k < |q|
    ensures q[..k] in fs && fs[q[..k]].Dir?
    decreases |q| - k
  {
    var up := Parent(q);
    if k < |up| {
      AncestorIsDir(fs, up, k);
      assert up[..k] == q[..k];
    }
  }

  /** Something lies below `p` only if `p` is a directory entry. */
  lemma AncestorOf(fs: Tree, p: Path, q: Path)
    requires WellFormed(fs) && q in fs && |p| > 0 && p <= q && p != q
    ensures p in fs && fs[p].Dir?
  {
    AncestorIsDir(fs, q, |p|);
    assert q[..|p|] == p;
  }

  /** What `makedirs(p)` leaves in a well-formed tree: `p` exists and the
      failure, if any, is `EEXIST`; or `p` is missing, the failure is
      `ENOTDIR`, and looking up its parent fails the same way. A missing
      directory on the way never stops it. */
  lemma {:induction false} MakeDirsOutcome(fs: Tree, p: Path)
    requires WellFormed(fs) && |p| > 0
    ensures var r := MakeDirs(fs, p);
      || (p in r.0 && (r.1.None? || r.1 == Some(EEXIST)))
      || (p !in r.0 && r.1 == Some(ENOTDIR) && ParentCheck(r.0, p) == Some(ENOTDIR))
    decreases |p|
  {
    var head := Parent(p);
    if |head| > 0 && head !in fs {
      assert p !in fs;
      MakeDirsOutcome(fs, head);
      MakeDirsFrame(fs, head);
      assert !(p <= head);
      assert p !in MakeDirs(fs, head).0;
    }
  }

  /** `makedirs` of an existing entry changes nothing and reports `EEXIST`. */
  lemma MakeDirsExisting(fs: Tree, p: Path)
    requires WellFormed(fs) && p in fs
    ensures MakeDirs(fs, p) == (fs, Some(EEXIST))
  {
  }

  /** Looking up names that are all entries other than symlinks is a plain walk. */
  lemma {:induction false} ResolvePlain(fs: Tree, prefix: Path, rest: seq<Name>, fuel: nat)
    requires forall j :: 0 <= j < |rest| ==> ProperName(rest[j])
    requires forall j :: 1 <= j <= |rest| ==> prefix + rest[..j] in fs && !fs[prefix + rest[..j]].Symlink?
    ensures Resolve(fs, prefix, rest, fuel) == Walk(prefix + rest, false)
    decreases |rest|
  {
    if |rest| > 0 {
      var q := prefix + [rest[0]];
      assert rest[..1] == [rest[0]];
      forall j | 1 <= j <= |rest[1..]|
        ensures q + rest[1..][..j] in fs && !fs[q + rest[1..][..j]].Symlink?
      {
        assert q + rest[1..][..j] == prefix + rest[..j + 1];
      }
      forall j | 0 <= j < |rest[1..]| ensures ProperName(rest[1..][j]) {
        assert rest[1..][j] == rest[j + 1];
      }
      ResolvePlain(fs, q, rest[1..], fuel);
      assert q + rest[1..] == prefix + rest;
    }
  }

  /** In a well-formed tree, `stat` of a normal path naming an entry that is not
      a symlink finds that entry. */
  lemma StatPlain(fs: Tree, p: Path)
    requires WellFormed(fs) && IsNormal(p) && p in fs && !fs[p].Symlink?
    ensures Stat(fs, p) == Ok(fs[p])
  {
    forall j | 1 <= j <= |p| ensures [] + p[..j] in fs && !fs[[] + p[..j]].Symlink? {
      assert [] + p[..j] == p[..j];
      if j < |p| {
        AncestorIsDir(fs, p, j);
      } else {
        assert p[..j] == p;
      }
    }
    ResolvePlain(fs, [], p, |fs|);
    assert [] + p == p;
  }

  /** No entry is a symbolic link. */
  ghost predicate NoLinks(fs: Tree)
  {
    forall q :: q in fs ==> !fs[q].Symlink?
  }

  /** Without symbolic links, resolving is normalising. */
  lemma {:induction false} ResolveNoLinks(fs: Tree, prefix: Path, rest: seq<Name>, fuel: nat)
    requires NoLinks(fs) && IsNormal(prefix)
    requires forall j :: 0 <= j < |rest| ==> '/' !in rest[j]
    ensures Resolve(fs, prefix, rest, fuel) == Walk(Normalize(prefix, rest), false)
    decreases |rest|
  {
    if |rest| > 0 {
      var n := rest[0];
      assert forall j :: 0 <= j < |rest[1..]| ==> rest[1..][j] == rest[j + 1];
      if n == "" || n == "." {
        ResolveNoLinks(fs, prefix, rest[1..], fuel);
      } else if n == ".." {
        ResolveNoLinks(fs, if |prefix| > 0 then prefix[..|prefix| - 1] else prefix, rest[1..], fuel);
      } else {
        ResolveNoLinks(fs, prefix + [n], rest[1..], fuel);
      }
    }
  }

  /** `realpath` and `abspath` agree on a tree without symbolic links. */
  lemma RealpathWithoutLinks(fs: Tree, cwd: Path, s: string)
    requires NoLinks(fs) && IsNormal(cwd)
    ensures Realpath(fs, cwd, s) == AbsPath(cwd, s)
  {
    ResolveNoLinks(fs, if IsAbsolute(s) then [] else cwd, SplitOn(s, '/'), |fs|);
  }

  /** Walking through names that are entries other than symlinks moves the
      prefix along and expands nothing. */
  lemma {:induction false} ResolveThrough(fs: Tree, prefix: Path, a: seq<Name>, b: seq<Name>, fuel: nat)
    requires forall j :: 0 <= j < |a| ==> ProperName(a[j])
    requires forall j :: 1 <= j <= |a| ==> prefix + a[..j] in fs && !fs[prefix + a[..j]].Symlink?
    ensures Resolve(fs, prefix, a + b, fuel) == Resolve(fs, prefix + a, b, fuel)
    decreases |a|
  {
    if |a| == 0 {
      assert a + b == b && prefix + a == prefix;
    } else {
      var q := prefix + [a[0]];
      assert a[..1] == [a[0]];
      assert (a + b)[0] == a[0] && (a + b)[1..] == a[1..] + b;
      forall j | 1 <= j <= |a[1..]| ensures q + a[1..][..j] in fs && !fs[q + a[1..][..j]].Symlink? {
        assert q + a[1..][..j] == prefix + a[..j + 1];
      }
      forall j | 0 <= j < |a[1..]| ensures ProperName(a[1..][j]) {
        assert a[1..][j] == a[j + 1];
      }
      ResolveThrough(fs, q, a[1..], b, fuel);
      assert q + a[1..] == prefix + a;
    }
  }

  /** `stat` of a symlink whose target is the absolute text of an entry that
      is no symlink reports that entry: the lookup follows the link; so does
      `isfile`. */
  lemma StatThroughLink(fs: Tree, q: Path, t: Path)
    requires WellFormed(fs) && IsNormal(q) && IsNormal(t)
    requires q in fs && fs[q] == Symlink(PathString(t))
    requires t in fs && !fs[t].Symlink?
    ensures Stat(fs, q) == Ok(fs[t])
    ensures IsFile(fs, q) <==> IsRegular(fs[t])
  {
    var a, n := Parent(q), q[|q| - 1];
    assert q == a + [n];
    forall j | 1 <= j <= |a| ensures [] + a[..j] in fs && !fs[[] + a[..j]].Symlink? {
      assert [] + a[..j] == q[..j];
      AncestorIsDir(fs, q, j);
    }
    ResolveThrough(fs, [], a, [n], |fs|);
    assert [] + a == a;
    var j := JoinWith(t, '/');
    assert PathString(t)[1..] == j;
    assert SplitOn(PathString(t), '/') == [""] + SplitOn(j, '/');
    SplitJoin(t, '/');
    assert SplitOn(PathString(t), '/') + [n][1..] == [""] + t;
    assert Resolve(fs, [], [""] + t, |fs| - 1) == Resolve(fs, [], t, |fs| - 1) by {
      assert ([""] + t)[1..] == t;
    }
    StatPlain(fs, t);
    ResolvePlainOf(fs, t);
  }

  /** In a well-formed tree the lookup of a normal path naming an entry that
      is no symlink expands nothing, whatever the fuel. */
  lemma ResolvePlainOf(fs: Tree, t: Path)
    requires WellFormed(fs) && IsNormal(t) && t in fs && !fs[t].Symlink?
    ensures forall fuel: nat :: Resolve(fs, [], t, fuel) == Walk(t, false)
  {
    forall fuel: nat ensures Resolve(fs, [], t, fuel) == Walk(t, false) {
      forall j | 1 <= j <= |t| ensures [] + t[..j] in fs && !fs[[] + t[..j]].Symlink? {
        assert [] + t[..j] == t[..j];
        if j < |t| { AncestorIsDir(fs, t, j); } else { assert t[..j] == t; }
      }
      ResolvePlain(fs, [], t, fuel);
      assert [] + t == t;
    }
  }

  /** `isfile` of an entry that is no symlink tests that entry. */
  lemma IsFilePlain(fs: Tree, p: Path)
    requires WellFormed(fs) && IsNormal(p) && p in fs && !fs[p].Symlink?
    ensures IsFile(fs, p) <==> IsRegular(fs[p])
  {
    StatPlain(fs, p);
  }
}
