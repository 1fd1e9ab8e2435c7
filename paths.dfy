/** Paths as lists of components, and the `os.path` functions the merge engine
    uses on them: `abspath`, `relpath` and `join`. */
module Paths {
  import opened Text
  import opened Outcomes

  type Name = string

  /** An absolute path as the list of its components: `["src", "a.py"]` is `/src/a.py`. */
  type Path = seq<Name>

  predicate IsAbsolute(s: string)
  {
    |s| > 0 && s[0] == '/'
  }

  /** A component that names an entry: not empty, not `.` or `..`, without a slash. */
  predicate ProperName(n: Name)
  {
    n != "" && n != "." && n != ".." && '/' !in n
  }

  /** A path whose every component is a proper name, as `abspath` returns them. */
  predicate IsNormal(p: Path)
  {
    forall i :: 0 <= i < |p| ==> ProperName(p[i])
  }

  /** `normpath` of the raw names `names` appended to the normal path `base`:
      empty names and `.` are dropped and `..` climbs one level (never above `/`). */
  function Normalize(base: Path, names: seq<Name>): (r: Path)
    requires IsNormal(base)
    requires forall i :: 0 <= i < |names| ==> '/' !in names[i]
    ensures IsNormal(r)
    decreases |names|
  {
    if |names| == 0 then base
    else
      var n := names[0];
      var next :=
        if n == "" || n == "." then base
        else if n == ".." then (if |base| > 0 then base[..|base| - 1] else base)
        else base + [n];
      Normalize(next, names[1..])
  }

  /** `os.path.abspath(s)` when the working directory is `cwd`; also
      `os.path.join` of `cwd` and `s` as the kernel reads it. */
  function AbsPath(cwd: Path, s: string): Path
    requires IsNormal(cwd)
  {
    Normalize(if IsAbsolute(s) then [] else cwd, SplitOn(s, '/'))
  }

  /** The absolute string of a path, as `realpath` returns it. */
  function PathString(p: Path): string
  {
    "/" + JoinWith(p, '/')
  }

  function Repeat(n: Name, k: nat): (r: seq<Name>)
    ensures |r| == k && forall i :: 0 <= i < k ==> r[i] == n
  {
    if k == 0 then [] else [n] + Repeat(n, k - 1)
  }

  /** The length of the longest common prefix of two paths. */
  function CommonPrefixLen(a: Path, b: Path): (r: nat)
    ensures r <= |a| && r <= |b| && a[..r] == b[..r]
    ensures r < |a| && r < |b| ==> a[r] != b[r]
  {
    if |a| == 0 || |b| == 0 || a[0] != b[0] then 0
    else
      var k := CommonPrefixLen(a[1..], b[1..]);
      assert a[..k + 1] == [a[0]] + a[1..][..k];
      assert b[..k + 1] == [b[0]] + b[1..][..k];
      k + 1
  }

  /** `os.path.relpath(path, start)`: `..` for every level of `start` below the
      common prefix, then the rest of `path`; `.` when they are the same.
      An empty `path` raises `ValueError`. */
  function RelPath(cwd: Path, path: string, start: string): (r: Result<string, Error>)
    requires IsNormal(cwd)
    ensures r.Err? <==> path == ""
    ensures r.Err? ==> r.error == ValueError("no path specified")
  {
    if path == "" then Err(ValueError("no path specified"))
    else
      var s := AbsPath(cwd, start);
      var p := AbsPath(cwd, path);
      var i := CommonPrefixLen(s, p);
      var rel := Repeat("..", |s| - i) + p[i..];
      Ok(if rel == [] then "." else JoinWith(rel, '/'))
  }

  lemma {:induction false} NormalizeProper(base: Path, names: seq<Name>)
    requires IsNormal(base) && IsNormal(names)
    ensures Normalize(base, names) == base + names
    decreases |names|
  {
    if |names| > 0 {
      NormalizeProper(base + [names[0]], names[1..]);
      assert base + [names[0]] + names[1..] == base + names;
    }
  }

  lemma {:induction false} NormalizeClimbs(base: Path, k: nat, rest: seq<Name>)
    requires IsNormal(base) && k <= |base|
    requires forall i :: 0 <= i < |rest| ==> '/' !in rest[i]
    ensures Normalize(base, Repeat("..", k) + rest) == Normalize(base[..|base| - k], rest)
  {
    if k > 0 {
      var names := Repeat("..", k) + rest;
      assert names[0] == "..";
      assert names[1..] == Repeat("..", k - 1) + rest;
      var up := base[..|base| - 1];
      assert Normalize(base, names) == Normalize(up, names[1..]);
      NormalizeClimbs(up, k - 1, rest);
      assert up[..|up| - (k - 1)] == base[..|base| - k];
    } else {
      assert Repeat("..", k) + rest == rest;
      assert base[..|base| - k] == base;
    }
  }

  /** Joining a normal path with the string of proper names `cs` appends them. */
  lemma AbsPathJoin(base: Path, cs: seq<Name>)
    requires IsNormal(base) && IsNormal(cs) && |cs| > 0
    ensures AbsPath(base, JoinWith(cs, '/')) == base + cs
  {
    var s := JoinWith(cs, '/');
    assert !IsAbsolute(s) by {
      if |cs| > 1 { assert s[..|cs[0]|] == cs[0]; assert s[0] == cs[0][0]; }
    }
    SplitJoin(cs, '/');
    NormalizeProper(base, cs);
  }

  /** Joining names that are non-empty and slash-free gives a relative path that
      `abspath` splits back into those names. */
  lemma AbsPathOfNames(base: Path, names: seq<Name>)
    requires IsNormal(base) && |names| > 0
    requires forall j :: 0 <= j < |names| ==> names[j] != "" && '/' !in names[j]
    ensures AbsPath(base, JoinWith(names, '/')) == Normalize(base, names)
  {
    SplitJoin(names, '/');
    var js := JoinWith(names, '/');
    assert names[0] != "" && '/' !in names[0];
    assert js[0] == names[0][0] by {
      if |names| > 1 { assert js == names[0] + ['/'] + JoinWith(names[1..], '/'); }
    }
    assert !IsAbsolute(js);
  }

  /** Climbing from `s` to the common prefix with `p`, then descending, reaches `p`. */
  lemma ClimbThenDescend(s: Path, p: Path, i: nat)
    requires IsNormal(s) && IsNormal(p) && i <= |s| && i <= |p| && s[..i] == p[..i]
    requires Repeat("..", |s| - i) + p[i..] != []
    ensures AbsPath(s, JoinWith(Repeat("..", |s| - i) + p[i..], '/')) == p
  {
    var up := Repeat("..", |s| - i);
    var down := p[i..];
    var rel := up + down;
    forall j | 0 <= j < |rel| ensures rel[j] != "" && '/' !in rel[j] {
      if j < |up| { assert rel[j] == up[j] == ".."; } else { assert rel[j] == down[j - |up|] == p[i + j - |up|]; }
    }
    AbsPathOfNames(s, rel);
    assert forall j :: 0 <= j < |down| ==> '/' !in down[j];
    NormalizeClimbs(s, |s| - i, down);
    assert s[..|s| - (|s| - i)] == p[..i];
    assert IsNormal(down) by {
      forall j | 0 <= j < |down| ensures ProperName(down[j]) { assert down[j] == p[i + j]; }
    }
    NormalizeProper(p[..i], down);
    assert p[..i] + down == p;
  }

  /** `relpath` and `join` are inverse: joining the relative path to `start`
      leads back to `path`, whatever the two paths are. */
  lemma RelPathRoundTrip(cwd: Path, path: string, start: string)
    requires IsNormal(cwd) && path != ""
    ensures AbsPath(AbsPath(cwd, start), RelPath(cwd, path, start).value) == AbsPath(cwd, path)
  {
    var s := AbsPath(cwd, start);
    var p := AbsPath(cwd, path);
    var i := CommonPrefixLen(s, p);
    var rel := Repeat("..", |s| - i) + p[i..];
    assert RelPath(cwd, path, start).value == if rel == [] then "." else JoinWith(rel, '/');
    if rel == [] {
      assert |p| == i == |s|;
      assert p == p[..i] == s[..i] == s;
      assert SplitOn(".", '/') == ["."];
      assert Normalize(s, ["."]) == Normalize(s, []);
    } else {
      ClimbThenDescend(s, p, i);
    }
  }

  /** For a file below `start`, `relpath` is the path of the file below it. */
  lemma RelPathBelow(cwd: Path, path: string, start: string, cs: seq<Name>)
    requires IsNormal(cwd) && path != "" && |cs| > 0
    requires AbsPath(cwd, path) == AbsPath(cwd, start) + cs
    ensures RelPath(cwd, path, start) == Ok(JoinWith(cs, '/'))
  {
    var s := AbsPath(cwd, start);
    var p := AbsPath(cwd, path);
    var i := CommonPrefixLen(s, p);
    assert i == |s| by {
      assert p[..|s|] == s;
      assert forall j :: 0 <= j < |s| ==> p[j] == s[j];
    }
    var rel := Repeat("..", |s| - i) + p[i..];
    assert rel == cs;
  }

  /** `realpath`'s string form reads back as the same path. */
  lemma AbsPathOfPathString(cwd: Path, p: Path)
    requires IsNormal(cwd) && IsNormal(p)
    ensures AbsPath(cwd, PathString(p)) == p
  {
    var j := JoinWith(p, '/');
    var s := "/" + j;
    assert s[1..] == j;
    assert SplitOn(s, '/') == [""] + SplitOn(j, '/');
    if |p| == 0 {
      assert SplitOn(j, '/') == [""];
      assert Normalize([], ["", ""]) == Normalize([], [""]) == [];
    } else {
      SplitJoin(p, '/');
      NormalizeProper([], p);
    }
  }
}
