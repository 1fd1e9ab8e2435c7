/** The second half of `_merge`: one symlink in the shared directory for each
    entry of the dictionary, in insertion order. */
module Links {
  import opened Text
  import opened Outcomes
  import opened Paths
  import opened FileTree
  import opened PathMerge

  /** The dictionary's `items()`, in insertion order. */
  function Entries(m: PathMap): (es: seq<(string, Path)>)
    requires ValidMap(m)
    ensures |es| == |m.order|
    // the keys in insertion order, each with its value
    ensures forall i :: 0 <= i < |es| ==> es[i].0 == m.order[i] && es[i].0 in m.values && es[i].1 == m.values[es[i].0]
    // every key of the dictionary, and each of them only once
    ensures forall k :: k in m.values <==> exists i :: 0 <= i < |es| && es[i].0 == k
    ensures forall i, j :: 0 <= i < j < |es| ==> es[i].0 != es[j].0
  {
    seq(|m.order|, i requires 0 <= i < |m.order| => (m.order[i], m.values[m.order[i]]))
  }

  /** A link to make: where it goes, and the string it points to. */
  datatype Placement = Placement(at: Path, target: string)

  /** `os.path.join(root, relative)` as the kernel resolves it, and the string
      `original` that the link holds. */
  function Place(root: Path, relative: string, original: Path): (p: Placement)
    requires IsNormal(root)
    ensures p.at == AbsPath(root, relative) && p.target == PathString(original)
  {
    Placement(AbsPath(root, relative), PathString(original))
  }

  /** The link for a relative path made of the proper names `cs` goes at
      `root + cs`, and the text it holds reads back as the original's path. */
  lemma PlaceJoins(root: Path, cs: seq<Name>, original: Path)
    requires IsNormal(root) && IsNormal(cs) && |cs| > 0 && IsNormal(original)
    ensures Place(root, JoinWith(cs, '/'), original).at == root + cs
    ensures AbsPath(root, Place(root, JoinWith(cs, '/'), original).target) == original
  {
    AbsPathJoin(root, cs);
    AbsPathOfPathString(root, original);
  }

  function Placements(root: Path, es: seq<(string, Path)>): (ps: seq<Placement>)
    requires IsNormal(root)
    ensures |ps| == |es|
    decreases |es|
  {
    if es == [] then [] else [Place(root, es[0].0, es[0].1)] + Placements(root, es[1..])
  }

  lemma {:induction false} PlacementAt(root: Path, es: seq<(string, Path)>, i: nat)
    requires IsNormal(root) && i < |es|
    ensures Placements(root, es)[i] == Place(root, es[i].0, es[i].1)
    decreases |es|
  {
    if i > 0 {
      PlacementAt(root, es[1..], i - 1);
    }
  }

  /** `os.path.dirname(merged)`; `makedirs` is asked for it first. */
  function Directory(merged: Path): Path
  {
    if |merged| > 0 then Parent(merged) else []
  }

  /** One turn of the link loop: `makedirs` of the directory (every failure
      ignored), then `symlink`; an `EEXIST` makes it `unlink` the entry and
      try once more, and a failure at either of those propagates; any other
      failure of the first `symlink` is logged and the entry skipped. */
  function LinkAt(fs: Tree, p: Placement): (r: Effect)
    // the only exception a turn raises is `EISDIR`, from unlinking a directory
    // in the way, and the tree is then as `makedirs` left it
    ensures r.error.Some? ==> r.error == Some(OSError(EISDIR)) && r.fs == MakeDirs(fs, Directory(p.at)).0
  {
    var made := MakeDirs(fs, Directory(p.at)).0;
    match MakeLink(made, p.target, p.at)
    case Ok(t) => Effect(t, None)
    case Err(EEXIST) =>
      (match Unlink(made, p.at)
       case Err(e) => Effect(made, Some(OSError(e)))
       case Ok(t) =>
         (match MakeLink(t, p.target, p.at)
          case Ok(t2) => Effect(t2, None)
          case Err(e) => Effect(t, Some(OSError(e)))))
    case Err(_) => Effect(made, None)
  }

  /** The link loop: each placement in turn; an exception ends the loop. */
  function LinkAll(fs: Tree, ps: seq<Placement>): (r: Effect)
    ensures r.error.Some? ==> r.error == Some(OSError(EISDIR))
    decreases |ps|
  {
    if ps == [] then Effect(fs, None)
    else
      var first := LinkAt(fs, ps[0]);
      if first.error.Some? then first else LinkAll(first.fs, ps[1..])
  }

  /** What one turn does, by the state of the merged path after `makedirs`:
      a missing path in a directory gets the link; an existing file or link
      is replaced by it; an existing directory stops the loop with `EISDIR`;
      a path whose directory is missing or not a directory is skipped. */
  lemma LinkAtCases(fs: Tree, p: Placement)
    requires |p.at| > 0
    ensures var made := MakeDirs(fs, Directory(p.at)).0;
      && (ParentCheck(made, p.at).None? && !(p.at in made && made[p.at].Dir?) ==>
            LinkAt(fs, p) == Effect(made[p.at := Symlink(p.target)], None))
      && (ParentCheck(made, p.at).None? && p.at in made && made[p.at].Dir? ==>
            LinkAt(fs, p) == Effect(made, Some(OSError(EISDIR))))
      && (ParentCheck(made, p.at).Some? ==> LinkAt(fs, p) == Effect(made, None))
  {
    var made := MakeDirs(fs, Directory(p.at)).0;
    if ParentCheck(made, p.at).None? && p.at in made && !made[p.at].Dir? {
      var t := made - {p.at};
      assert Unlink(made, p.at) == Ok(t);
      assert ParentCheck(t, p.at) == ParentCheck(made, p.at) by {
        if |p.at| > 1 { assert Parent(p.at) != p.at; }
      }
      assert t[p.at := Symlink(p.target)] == made[p.at := Symlink(p.target)];
    }
  }

  /** One turn leaves the tree well formed, keeps every entry and every
      directory, and changes nothing but the merged path, which becomes a
      link; what it adds besides is directories. */
  lemma LinkAtFrame(fs: Tree, p: Placement)
    requires WellFormed(fs)
    ensures var t := LinkAt(fs, p).fs;
      && WellFormed(t)
      && (forall q :: q in fs ==> q in t && (t[q] == fs[q] || (q == p.at && t[q] == Symlink(p.target))))
      && (forall q :: q in fs && fs[q].Dir? ==> t[q] == fs[q])
      && (forall q :: q in t && q !in fs ==> (t[q].Dir? && q < p.at) || (q == p.at && t[q] == Symlink(p.target)))
  {
    var made := MakeDirs(fs, Directory(p.at)).0;
    MakeDirsFrame(fs, Directory(p.at));
    MakeDirsWellFormed(fs, Directory(p.at));
    forall q | q in made && q !in fs ensures q < p.at {
      assert |p.at| > 0;
      assert q <= Parent(p.at);
    }
    if |p.at| > 0 {
      LinkAtCases(fs, p);
      if ParentCheck(made, p.at).None? && !(p.at in made && made[p.at].Dir?) {
        var t := made[p.at := Symlink(p.target)];
        forall q | q in t && |q| > 1 ensures Parent(q) in t && t[Parent(q)].Dir? {
          if q != p.at {
            assert Parent(q) in made && made[Parent(q)].Dir?;
            assert Parent(q) != p.at;
          }
        }
      }
    } else {
      assert MakeLink(made, p.target, p.at) == Err(EEXIST);
      assert Unlink(made, p.at) == Err(EISDIR);
    }
  }

  /** Somewhere in `ps` a link is placed at `q`. */
  ghost predicate Touched(ps: seq<Placement>, q: Path)
  {
    exists i :: 0 <= i < |ps| && ps[i].at == q
  }

  /** Somewhere in `ps` a link is placed below `q`. */
  ghost predicate Inside(ps: seq<Placement>, q: Path)
  {
    exists i :: 0 <= i < |ps| && q < ps[i].at
  }

  /** The whole loop, whether or not it stops early, keeps the tree well
      formed, keeps every entry and every directory, turns only merged paths
      into links, and adds nothing but directories on the way to merged paths
      and merged links. */
  lemma {:induction false} LinkAllFrame(fs: Tree, ps: seq<Placement>)
    requires WellFormed(fs)
    ensures var t := LinkAll(fs, ps).fs;
      && WellFormed(t)
      && (forall q :: q in fs ==> q in t && (t[q] == fs[q] || (Touched(ps, q) && t[q].Symlink?)))
      && (forall q :: q in fs && fs[q].Dir? ==> t[q] == fs[q])
      && (forall q :: q in t && q !in fs ==> (t[q].Dir? && Inside(ps, q)) || (Touched(ps, q) && t[q].Symlink?))
    decreases |ps|
  {
    if ps != [] {
      var first := LinkAt(fs, ps[0]);
      LinkAtFrame(fs, ps[0]);
      assert ps[0].at == ps[0].at;
      forall q | q < ps[0].at ensures Inside(ps, q) {
      }
      if first.error.None? {
        var rest := ps[1..];
        LinkAllFrame(first.fs, rest);
        assert LinkAll(fs, ps) == LinkAll(first.fs, rest);
        forall q | Touched(rest, q) ensures Touched(ps, q) {
          var i :| 0 <= i < |rest| && rest[i].at == q;
          assert ps[i + 1] == rest[i];
        }
        forall q | Inside(rest, q) ensures Inside(ps, q) {
          var i :| 0 <= i < |rest| && q < rest[i].at;
          assert ps[i + 1] == rest[i];
        }
      }
    }
  }

  /** A turn whose merged path has no directory to go in (its parent is
      missing or no directory even after `makedirs`) is logged and skipped,
      and the loop goes on with the next entry. */
  lemma LinkSkipContinues(fs: Tree, ps: seq<Placement>)
    requires ps != [] && |ps[0].at| > 0
    requires ParentCheck(MakeDirs(fs, Directory(ps[0].at)).0, ps[0].at).Some?
    ensures LinkAll(fs, ps) == LinkAll(MakeDirs(fs, Directory(ps[0].at)).0, ps[1..])
  {
    LinkAtCases(fs, ps[0]);
  }

  lemma LinkAllCons(fs: Tree, ps: seq<Placement>)
    requires ps != [] && LinkAt(fs, ps[0]).error.None?
    ensures LinkAll(fs, ps) == LinkAll(LinkAt(fs, ps[0]).fs, ps[1..])
  {
  }

  /** No merged path is a prefix of another (in particular, they differ). */
  predicate Apart(ps: seq<Placement>)
  {
    forall i, j :: 0 <= i < |ps| && 0 <= j < |ps| && i != j ==> !(ps[i].at <= ps[j].at)
  }

  /** There is room for the link: the merged path is missing, and every
      directory on the way to it below the root is missing or a directory. */
  ghost predicate Room(fs: Tree, root: Path, q: Path)
  {
    && q !in fs
    && forall b :: |root| < b < |q| ==> q[..b] !in fs || fs[q[..b]].Dir?
  }

  /** A turn with room for its link, below an existing root directory,
      makes the missing directories and the link, and nothing else. */
  lemma LinkAtPlaces(fs: Tree, root: Path, p: Placement)
    requires WellFormed(fs) && root in fs && fs[root].Dir?
    requires Below(root, p.at) && Room(fs, root, p.at)
    ensures LinkAt(fs, p) == Effect(MakeDirs(fs, Parent(p.at)).0[p.at := Symlink(p.target)], None)
  {
    var dir := Parent(p.at);
    assert |root| > 0;
    assert dir[..|root|] == root;
    forall j | |root| < j <= |dir| ensures dir[..j] !in fs || fs[dir[..j]].Dir? {
      assert dir[..j] == p.at[..j];
    }
    MakeDirsReaches(fs, dir, |root|);
    MakeDirsFrame(fs, dir);
    var made := MakeDirs(fs, dir).0;
    assert !(p.at <= dir);
    assert p.at !in made;
    LinkAtCases(fs, p);
  }

  /** A turn leaves room for the links of the paths that are neither a prefix
      nor an extension of its own. */
  lemma RoomAfterLink(fs: Tree, p: Placement, q: Path, root: Path)
    requires |p.at| > 0 && Room(fs, root, q)
    requires !(q <= p.at) && !(p.at <= q)
    ensures Room(MakeDirs(fs, Parent(p.at)).0[p.at := Symlink(p.target)], root, q)
  {
    var made := MakeDirs(fs, Parent(p.at)).0;
    MakeDirsFrame(fs, Parent(p.at));
    var t := made[p.at := Symlink(p.target)];
    assert Parent(p.at) <= p.at;
    assert q !in made;
    forall b | |root| < b < |q| && q[..b] in t ensures t[q[..b]].Dir? {
      assert q[..b] <= q;
      assert q[..b] != p.at;
    }
  }

  /** Links equal the dictionary: when every merged path lies below the root,
      none is a prefix of another, and each has room, the loop finishes
      without an exception and every merged path holds its link. */
  lemma {:induction false} LinkAllPlaces(fs: Tree, root: Path, ps: seq<Placement>)
    requires WellFormed(fs) && root in fs && fs[root].Dir?
    requires forall i :: 0 <= i < |ps| ==> Below(root, ps[i].at) && Room(fs, root, ps[i].at)
    requires Apart(ps)
    ensures LinkAll(fs, ps).error.None?
    ensures forall i :: 0 <= i < |ps| ==>
      ps[i].at in LinkAll(fs, ps).fs && LinkAll(fs, ps).fs[ps[i].at] == Symlink(ps[i].target)
    decreases |ps|
  {
    if ps != [] {
      var p := ps[0];
      var rest := ps[1..];
      LinkAtPlaces(fs, root, p);
      var t := MakeDirs(fs, Parent(p.at)).0[p.at := Symlink(p.target)];
      LinkAtFrame(fs, p);
      forall j | 0 <= j < |rest| ensures Below(root, rest[j].at) && Room(t, root, rest[j].at) {
        assert rest[j] == ps[j + 1];
        RoomAfterLink(fs, p, rest[j].at, root);
      }
      assert root != p.at;
      assert Apart(rest) by {
        forall i, j | 0 <= i < |rest| && 0 <= j < |rest| && i != j ensures !(rest[i].at <= rest[j].at) {
          assert rest[i] == ps[i + 1] && rest[j] == ps[j + 1];
        }
      }
      LinkAllCons(fs, ps);
      LinkAllPlaces(t, root, rest);
      LinkAllFrame(t, rest);
      var r := LinkAll(t, rest).fs;
      forall i | 0 <= i < |ps| ensures ps[i].at in r && r[ps[i].at] == Symlink(ps[i].target) {
        if i == 0 {
          forall j | 0 <= j < |rest| ensures rest[j].at != p.at {
            assert rest[j] == ps[j + 1];
          }
        } else {
          assert ps[i] == rest[i - 1];
        }
      }
    }
  }
}
