/** The filesystem as the one piece of state the merge engine changes. Its
    methods are the `os` and `shutil` calls the engine makes; each changes
    the tree as the function of the same name in `FileTree` says. */
module Os {
  import opened Outcomes
  import opened Paths
  import opened FileTree

  class FileSystem {
    var entries: Tree

    ghost predicate Valid()
      reads this
    {
      WellFormed(entries)
    }

    constructor (initial: Tree)
      requires WellFormed(initial)
      ensures Valid() && entries == initial
    {
      entries := initial;
    }

    /** `os.makedirs(p)`. */
    method MakeDirs(p: Path) returns (err: Option<Errno>)
      requires Valid()
      modifies this
      ensures Valid()
      ensures (entries, err) == FileTree.MakeDirs(old(entries), p)
    {
      MakeDirsWellFormed(entries, p);
      var r := FileTree.MakeDirs(entries, p);
      entries, err := r.0, r.1;
    }

    /** `os.symlink(target, p)`. */
    method MakeLink(target: string, p: Path) returns (err: Option<Errno>)
      requires Valid()
      modifies this
      ensures Valid()
      ensures FileTree.MakeLink(old(entries), target, p).Ok? ==>
        err.None? && entries == FileTree.MakeLink(old(entries), target, p).value
      ensures FileTree.MakeLink(old(entries), target, p).Err? ==>
        err == Some(FileTree.MakeLink(old(entries), target, p).error) && entries == old(entries)
    {
      var r := FileTree.MakeLink(entries, target, p);
      if r.Ok? {
        SymlinkWellFormed(entries, target, p);
        entries, err := r.value, None;
      } else {
        err := Some(r.error);
      }
    }

    /** `os.unlink(p)`, also `os.remove(p)`. */
    method Unlink(p: Path) returns (err: Option<Errno>)
      requires Valid()
      modifies this
      ensures Valid()
      ensures FileTree.Unlink(old(entries), p).Ok? ==>
        err.None? && entries == FileTree.Unlink(old(entries), p).value
      ensures FileTree.Unlink(old(entries), p).Err? ==>
        err == Some(FileTree.Unlink(old(entries), p).error) && entries == old(entries)
    {
      var r := FileTree.Unlink(entries, p);
      if r.Ok? {
        UnlinkWellFormed(entries, p);
        entries, err := r.value, None;
      } else {
        err := Some(r.error);
      }
    }

    /** `shutil.rmtree(p)`. */
    method RmTree(p: Path) returns (err: Option<Errno>)
      requires Valid()
      modifies this
      ensures Valid()
      ensures FileTree.RmTree(old(entries), p).Ok? ==>
        err.None? && entries == FileTree.RmTree(old(entries), p).value
      ensures FileTree.RmTree(old(entries), p).Err? ==>
        err == Some(FileTree.RmTree(old(entries), p).error) && entries == old(entries)
    {
      var r := FileTree.RmTree(entries, p);
      if r.Ok? {
        RmTreeWellFormed(entries, p);
        entries, err := r.value, None;
      } else {
        err := Some(r.error);
      }
    }

    /** `open(p, "w")` followed by writing `content`. */
    method Open(p: Path, content: Node) returns (err: Option<Errno>)
      requires Valid() && IsRegular(content)
      modifies this
      ensures Valid()
      ensures FileTree.Open(old(entries), p, content).Ok? ==>
        err.None? && entries == FileTree.Open(old(entries), p, content).value
      ensures FileTree.Open(old(entries), p, content).Err? ==>
        err == Some(FileTree.Open(old(entries), p, content).error) && entries == old(entries)
    {
      var r := FileTree.Open(entries, p, content);
      if r.Ok? {
        OpenWellFormed(entries, p, content);
        entries, err := r.value, None;
      } else {
        err := Some(r.error);
      }
    }
  }
}
