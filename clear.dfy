/** `_clear` and `remove_if_exists`: emptying the shared directory of
    everything but the names it keeps for itself. */
module Clearing {
  import opened Text
  import opened Outcomes
  import opened Paths
  import opened FileTree
  import Os

  /** The names `_clear` keeps: the lock, the manifest and anything else whose
      name starts with `.pyre`. */
  predicate Reserved(n: Name)
  {
    StartsWith(n, ".pyre")
  }

  /** The tree without `p` and everything below it. */
  function Pruned(fs: Tree, p: Path): Tree
  {
    map q | q in fs && !(p <= q) :: fs[q]
  }

  /** `remove_if_exists(p)`: `os.remove(p)`, then `shutil.rmtree(p)`, each
      failure ignored. */
  function Removed(fs: Tree, p: Path): Tree
  {
    var unlinked := match Unlink(fs, p) case Ok(t) => t case Err(_) => fs;
    match RmTree(unlinked, p) case Ok(t) => t case Err(_) => unlinked
  }

  /** Whatever `p` names (nothing, a file, a link or a directory),
      `remove_if_exists` takes it away with everything below it, and nothing
      else; the tree stays well formed. */
  lemma RemovedPrunes(fs: Tree, p: Path)
    requires WellFormed(fs) && |p| > 0
    ensures Removed(fs, p) == Pruned(fs, p)
    ensures WellFormed(Removed(fs, p))
  {
    forall q | q in fs && p <= q && q != p ensures p in fs && fs[p].Dir? {
      AncestorOf(fs, p, q);
    }
    if p in fs && fs[p].Dir? {
      RmTreeWellFormed(fs, p);
    } else if p in fs {
      UnlinkWellFormed(fs, p);
      assert fs - {p} == Pruned(fs, p);
    } else {
      assert fs == Pruned(fs, p);
    }
  }

  /** What `_clear` leaves: everything outside the root, the root itself and
      every reserved name in it with what lies below; nothing else below the
      root. */
  function Cleared(fs: Tree, root: Path): (r: Tree)
    ensures forall q :: q in r ==> q in fs && r[q] == fs[q]
    ensures forall q :: q in fs && !Below(root, q) ==> q in r
    ensures forall q :: q in fs && Below(root, q) && Reserved(q[|root|]) ==> q in r
    ensures forall q :: q in r && Below(root, q) ==> Reserved(q[|root|])
  {
    map q | q in fs && !(Below(root, q) && !Reserved(q[|root|])) :: fs[q]
  }

  /** What `_clear` does: `listdir` of the root, whose failure propagates,
      then `remove_if_exists` of each name that is not reserved. */
  function ClearResult(fs: Tree, root: Path): (r: Effect)
    ensures r.error.Some? <==> !(root in fs && fs[root].Dir?)
    ensures r.error.Some? ==> r.fs == fs && r.error.value.OSError?
    ensures r.error.None? ==> r.fs == Cleared(fs, root)
  {
    match ListDir(fs, root)
    case Err(e) => Effect(fs, Some(OSError(e)))
    case Ok(_) => Effect(Cleared(fs, root), None)
  }

  /** After `_clear`, `listdir` of the root lists exactly the reserved names it
      listed before, and the tree is still well formed. */
  lemma ClearedLeavesReserved(fs: Tree, root: Path)
    requires WellFormed(fs) && root in fs && fs[root].Dir?
    ensures WellFormed(Cleared(fs, root))
    ensures ListDir(Cleared(fs, root), root).Ok?
    ensures forall n :: n in ListDir(Cleared(fs, root), root).value <==>
      n in ListDir(fs, root).value && Reserved(n)
  {
    var r := Cleared(fs, root);
    forall q | q in r && |q| > 1 ensures Parent(q) in r && r[Parent(q)].Dir? {
      if Below(root, Parent(q)) {
        assert Parent(q)[|root|] == q[|root|];
      }
    }
    forall n ensures root + [n] in r <==> root + [n] in fs && Reserved(n) {
      assert (root + [n])[|root|] == n;
      assert (root + [n])[..|root|] == root;
    }
  }

  /** The tree after `remove_if_exists` of the non-reserved names in `done`. */
  function ClearedBy(fs: Tree, root: Path, done: set<Name>): Tree
  {
    map q | q in fs && !(Below(root, q) && q[|root|] in done && !Reserved(q[|root|])) :: fs[q]
  }

  /** One turn of the loop in `_clear`. */
  lemma ClearStep(fs: Tree, root: Path, done: set<Name>, n: Name)
    ensures !Reserved(n) ==> Pruned(ClearedBy(fs, root, done), root + [n]) == ClearedBy(fs, root, done + {n})
    ensures Reserved(n) ==> ClearedBy(fs, root, done) == ClearedBy(fs, root, done + {n})
  {
    forall q ensures root + [n] <= q <==> Below(root, q) && q[|root|] == n {
      if Below(root, q) && q[|root|] == n {
        assert q[..|root| + 1] == root + [n];
      }
    }
  }

  /** Once every listed name is done, the loop has left `Cleared`. */
  lemma ClearedByAll(fs: Tree, root: Path, names: set<Name>)
    requires WellFormed(fs)
    requires forall n :: n in names <==> root + [n] in fs
    ensures ClearedBy(fs, root, names) == Cleared(fs, root)
  {
    var a, b := ClearedBy(fs, root, names), Cleared(fs, root);
    forall q | q in fs && Below(root, q) ensures q[|root|] in names {
      ChildListed(fs, root, names, q);
    }
    assert forall q :: q in a <==> q in b;
    assert forall q :: q in a ==> a[q] == b[q];
  }

  /** The first name below the root of an entry under it is a listed child. */
  lemma ChildListed(fs: Tree, root: Path, names: set<Name>, q: Path)
    requires WellFormed(fs) && q in fs && Below(root, q)
    requires forall n :: n in names <==> root + [n] in fs
    ensures q[|root|] in names
  {
    var child := q[..|root| + 1];
    if |root| + 1 < |q| {
      AncestorIsDir(fs, q, |root| + 1);
    } else {
      assert child == q;
    }
    assert child == root + [q[|root|]];
  }

  /** `remove_if_exists(path)`. */
  method RemoveIfExists(fs: Os.FileSystem, p: Path)
    requires fs.Valid()
    modifies fs
    ensures fs.Valid()
    ensures fs.entries == Removed(old(fs.entries), p)
  {
    var ignored := fs.Unlink(p);
    ignored := fs.RmTree(p);
  }

  /** `SharedSourceDirectory._clear()` for the shared directory `root`. */
  method Clear(fs: Os.FileSystem, root: Path) returns (err: Option<Error>)
    requires fs.Valid()
    modifies fs
    ensures fs.Valid()
    ensures Effect(fs.entries, err) == ClearResult(old(fs.entries), root)
  {
    var listed := ListDir(fs.entries, root);
    if listed.Err? {
      return Some(OSError(listed.error));
    }
    ghost var start := fs.entries;
    var remaining := listed.value;
    ghost var done: set<Name> := {};
    while remaining != {}
      invariant fs.Valid()
      invariant remaining + done == listed.value && remaining !! done
      invariant fs.entries == ClearedBy(start, root, done)
      decreases remaining
    {
      var name :| name in remaining;
      ClearStep(start, root, done, name);
      if !StartsWith(name, ".pyre") {
        RemovedPrunes(fs.entries, root + [name]);
        RemoveIfExists(fs, root + [name]);
      }
      remaining := remaining - {name};
      done := done + {name};
    }
    ClearedByAll(start, root, listed.value);
    return None;
  }
}
