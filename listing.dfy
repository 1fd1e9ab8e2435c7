/** How the output and exit status of the external listing commands (`find`,
    `hg files`, `hg status`) become results or exceptions. */
module Listing {
  import opened Text
  import opened Outcomes

  /** What running an external command gave: its exit status and its standard
      output, or that the executable could not be found. */
  datatype ProcessOutcome = Exited(code: int, stdout: string) | NotFound

  const SourceDirectoryMissing: string :=
    "pyre was unable to locate a source directory. Ensure that your project is built and re-run pyre."

  const HgMissing: string := "hg executable not found."

  function UnexpectedHgCode(code: int): string
  {
    "Unexpected return code " + IntToString(code) + " from call to `hg files`."
  }

  /** `_find_python_paths`, given what `find` did: the lines of its stripped
      output; a non-zero exit becomes an `EnvironmentException`, and a missing
      `find` binary the `FileNotFoundError` that `check_output` raises. */
  function FindPythonPaths(o: ProcessOutcome): (r: Result<seq<string>, Error>)
    ensures r.Ok? <==> o.Exited? && o.code == 0
    ensures r.Ok? ==> |r.value| >= 1 && JoinWith(r.value, '\n') == Strip(o.stdout)
    ensures r.Ok? ==> forall i :: 0 <= i < |r.value| ==> '\n' !in r.value[i]
    ensures o.Exited? && o.code != 0 ==> r == Err(EnvironmentException(SourceDirectoryMissing))
    ensures o.NotFound? ==> r == Err(OSError(ENOENT))
  {
    match o
    case NotFound => Err(OSError(ENOENT))
    case Exited(code, out) =>
      if code != 0 then Err(EnvironmentException(SourceDirectoryMissing))
      else
        JoinSplit(Strip(out), '\n');
        Ok(SplitOn(Strip(out), '\n'))
  }

  /** When `find` prints nothing but whitespace, the list holds one empty path. */
  lemma FindPrintsNothing(out: string)
    requires Strip(out) == ""
    ensures FindPythonPaths(Exited(0, out)) == Ok([""])
  {
  }

  /** `Filesystem.list`: the whitespace-separated words `find` printed; any
      failure of `find` propagates from `check_output` unchanged. */
  function FilesystemList(o: ProcessOutcome): (r: Result<seq<string>, Error>)
    ensures r.Ok? <==> o.Exited? && o.code == 0
    ensures r.Ok? ==> Concat(r.value) == RemoveSpace(o.stdout)
    // each word is a non-empty run without whitespace (`SplitWhitespaceSpaced`
    // shows that the words of spaced-out text are exactly the words put in)
    ensures r.Ok? ==> forall i :: 0 <= i < |r.value| ==>
      |r.value[i]| > 0 && forall j :: 0 <= j < |r.value[i]| ==> !IsSpace(r.value[i][j])
    ensures o.Exited? && o.code != 0 ==> r == Err(CalledProcessError(o.code))
    // no `find` executable: the `FileNotFoundError` of `check_output`
    ensures o.NotFound? ==> r == Err(OSError(ENOENT))
  {
    match o
    case NotFound => Err(OSError(ENOENT))
    case Exited(code, out) =>
      if code != 0 then Err(CalledProcessError(code))
      else
        SplitWhitespaceKeepsText(out);
        Ok(SplitWhitespace(out))
  }

  /** `MercurialBackedFilesystem.list`, given what `hg files` did. */
  function HgList(o: ProcessOutcome): (r: Result<seq<string>, Error>)
    // exit status 1 means "no matches": an empty list, not an error
    ensures o.Exited? && o.code == 1 ==> r == Ok([])
    // success: the words of the output, with nothing but whitespace lost
    ensures o.Exited? && o.code == 0 ==> r.Ok? && Concat(r.value) == RemoveSpace(o.stdout)
    ensures r.Ok? ==> forall i :: 0 <= i < |r.value| ==>
      |r.value[i]| > 0 && forall j :: 0 <= j < |r.value[i]| ==> !IsSpace(r.value[i][j])
    // any other status, or no `hg` at all, is an environment failure
    ensures r.Err? <==> o.NotFound? || (o.code != 0 && o.code != 1)
    ensures r.Err? ==> r.error.EnvironmentException?
    ensures o.NotFound? ==> r.error.message == HgMissing
    ensures o.Exited? && r.Err? ==> r.error.message == UnexpectedHgCode(o.code)
  {
    match o
    case NotFound => Err(EnvironmentException(HgMissing))
    case Exited(code, out) =>
      if code == 0 then
        SplitWhitespaceKeepsText(out);
        Ok(SplitWhitespace(out))
      else if code == 1 then Ok([])
      else Err(EnvironmentException(UnexpectedHgCode(code)))
  }

  /** Both listers return exactly the words of their output: for output made
      of whitespace-free words separated by whitespace runs, the list is those
      words, in order. */
  lemma ListsSpacedWords(gaps: seq<string>, ws: seq<string>)
    requires |gaps| == |ws| + 1
    requires forall i :: 0 <= i < |gaps| ==> forall j :: 0 <= j < |gaps[i]| ==> IsSpace(gaps[i][j])
    requires forall i :: 0 < i < |ws| ==> |gaps[i]| > 0
    requires forall i :: 0 <= i < |ws| ==> |ws[i]| > 0 && forall j :: 0 <= j < |ws[i]| ==> !IsSpace(ws[i][j])
    ensures FilesystemList(Exited(0, Spaced(gaps, ws))) == Ok(ws)
    ensures HgList(Exited(0, Spaced(gaps, ws))) == Ok(ws)
  {
    SplitWhitespaceSpaced(gaps, ws);
  }

  /** The exception raised for an unexpected exit status carries that status:
      different statuses give different messages. */
  lemma HgErrorCarriesCode(a: int, b: int)
    requires HgList(Exited(a, "")).Err? && HgList(Exited(b, "")).Err?
    requires HgList(Exited(a, "")) == HgList(Exited(b, ""))
    ensures a == b
  {
    var ma, mb := UnexpectedHgCode(a), UnexpectedHgCode(b);
    var k := |"Unexpected return code "|;
    var t := |" from call to `hg files`."|;
    assert ma[k..|ma| - t] == IntToString(a);
    assert mb[k..|mb| - t] == IntToString(b);
    IntToStringInjective(a, b);
  }

  /** Which lister `get_filesystem` picks. */
  datatype Backend = Generic | Mercurial

  /** `get_filesystem`, given what `hg status` did: the Mercurial lister exactly
      when `hg status` succeeds. */
  function SelectFilesystem(probe: ProcessOutcome): (b: Backend)
    ensures b == Mercurial <==> probe.Exited? && probe.code == 0
  {
    if probe.Exited? && probe.code == 0 then Mercurial else Generic
  }

  /** Listing with the lister `get_filesystem` picked. */
  function List(backend: Backend, o: ProcessOutcome): Result<seq<string>, Error>
  {
    match backend
    case Generic => FilesystemList(o)
    case Mercurial => HgList(o)
  }

  /** Under Mercurial "no matches" is an empty list; the generic lister has no
      such case and fails on any non-zero status. */
  lemma NoMatchesOnlyUnderMercurial(out: string)
    ensures List(SelectFilesystem(Exited(0, "")), Exited(1, out)) == Ok([])
    ensures List(SelectFilesystem(Exited(255, "")), Exited(1, out)) == Err(CalledProcessError(1))
  {
  }
}
