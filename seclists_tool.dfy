/**
 * The `do-list-wordlists` tool every wordlist-consuming server registers: with
 * a pattern it searches file names below a SecLists directory (at most 50
 * results), without one it lists that directory.
 */
module SeclistsTool {
  import opened Wrappers
  import opened Text
  import Js
  import PosixPath
  import Sanitize
  import opened DirTree

  /** The SecLists root when none is given. */
  const DefaultBasePath: string := "/opt/seclists"

  /** The bound `findFiles` runs with. */
  const MaxResults: nat := 50

  /** The default root is the directory `seclists` in `opt`. */
  lemma DefaultBase(fs: Volume)
    requires fs.baseNames == ["opt", "seclists"]
    ensures BasePath(fs) == DefaultBasePath
    ensures PosixPath.Names(fs.baseNames)
  {
    assert Join(["opt", "seclists"], "/") == "opt/seclists";
    assert !HasChar("opt", '/') && !HasChar("seclists", '/');
  }

  // ---------------------------------------------------------------- findFiles

  /** Once the bound is reached, the rest of the entries add nothing. */
  lemma BoundReached(entries: seq<Entry>, i: nat, at: seq<string>, pattern: string, results: seq<string>, max: nat)
    requires i <= |entries|
    requires |Cap(results + Paths(Found(entries[..i], at, pattern)), max)| >= max
    ensures Cap(results + Paths(Found(entries, at, pattern)), max) == Cap(results + Paths(Found(entries[..i], at, pattern)), max)
  {
    FoundSplit(entries, i, at, pattern);
    CapFull(results + Paths(Found(entries[..i], at, pattern)), Paths(Found(entries[i..], at, pattern)), max);
  }

  lemma FoundSplit(entries: seq<Entry>, i: nat, at: seq<string>, pattern: string)
    requires i <= |entries|
    ensures Paths(Found(entries, at, pattern)) == Paths(Found(entries[..i], at, pattern)) + Paths(Found(entries[i..], at, pattern))
  {
    FoundAppend(entries[..i], entries[i..], at, pattern);
    assert entries[..i] + entries[i..] == entries;
    PathsAppend(Found(entries[..i], at, pattern), Found(entries[i..], at, pattern));
  }

  lemma CapFull<T>(done: seq<T>, rest: seq<T>, max: nat)
    requires |Cap(done, max)| >= max
    ensures Cap(done + rest, max) == Cap(done, max)
  {
    assert (done + rest)[..max] == done[..max];
  }

  /** What one more entry adds, capped, is what the longer prefix finds, capped. */
  lemma BoundedStep(entries: seq<Entry>, i: nat, at: seq<string>, pattern: string, results: seq<string>,
                    before: seq<string>, r: seq<string>, max: nat)
    requires i < |entries|
    requires before == Cap(results + Paths(Found(entries[..i], at, pattern)), max) && |before| < max
    requires r == Cap(before + Paths(FoundIn(entries[i], at, pattern)), max)
    ensures r == Cap(results + Paths(Found(entries[..i + 1], at, pattern)), max)
  {
    var done := results + Paths(Found(entries[..i], at, pattern));
    var step := Paths(FoundIn(entries[i], at, pattern));
    CapCap(done, step, max);
    FoundStep(entries, i, at, pattern);
    assert done + step == results + Paths(Found(entries[..i + 1], at, pattern));
  }

  lemma BoundedStart(entries: seq<Entry>, at: seq<string>, pattern: string, results: seq<string>, max: nat)
    requires |results| < max
    ensures results == Cap(results + Paths(Found(entries[..0], at, pattern)), max)
  {
    assert entries[..0] == [];
    assert results + Paths(Found([], at, pattern)) == results;
  }

  /**
   * The bounded recursive search: nothing is read once `max` results are
   * collected, the loop stops as soon as the bound is reached, and each
   * matching file is pushed as its path relative to the root.
   */
  method FindFilesBounded(entries: seq<Entry>, at: seq<string>, pattern: string, results: seq<string>, max: nat)
    returns (r: seq<string>)
    ensures r == if |results| >= max then results else Cap(results + Paths(Found(entries, at, pattern)), max)
    decreases entries
  {
    r := results;
    if |r| >= max {
      return;
    }
    var i := 0;
    BoundedStart(entries, at, pattern, results, max);
    while i < |entries|
      invariant 0 <= i <= |entries|
      invariant r == Cap(results + Paths(Found(entries[..i], at, pattern)), max)
      decreases |entries| - i
    {
      if |r| >= max {
        BoundReached(entries, i, at, pattern, results, max);
        return;
      }
      var entry := entries[i];
      ghost var before := r;
      match entry {
        case Dir(name, _, children) =>
          if !Skipped(name) {
            r := FindFilesBounded(children, at + [name], pattern, r, max);
          }
        case File(name, _, _) =>
          if NameMatches(name, pattern) {
            r := r + [Join(at + [name], "/")];
          }
      }
      assert r == Cap(before + Paths(FoundIn(entry, at, pattern)), max);
      BoundedStep(entries, i, at, pattern, results, before, r, max);
      i := i + 1;
    }
    assert entries[..|entries|] == entries;
  }

  /** What the search reports from a directory whose entries are `children` and whose names below the root are `at`. */
  function SearchMatches(children: seq<Entry>, at: seq<string>, pattern: string): (r: seq<string>)
    ensures |r| <= MaxResults
  {
    Cap(Paths(Found(children, at, pattern)), MaxResults)
  }

  /** Every reported path is that of a matching file reachable from the searched directory. */
  lemma SearchMatchesSound(children: seq<Entry>, at: seq<string>, pattern: string)
    ensures forall m :: m in SearchMatches(children, at, pattern) ==>
      exists q :: q in Found(children, at, pattern) && Reached(children, at, q, pattern) && m == Join(q, "/")
  {
    var all := Paths(Found(children, at, pattern));
    FoundSound(children, at, pattern);
    forall m | m in SearchMatches(children, at, pattern)
      ensures exists q :: q in Found(children, at, pattern) && Reached(children, at, q, pattern) && m == Join(q, "/")
    {
      var k :| 0 <= k < |SearchMatches(children, at, pattern)| && SearchMatches(children, at, pattern)[k] == m;
      assert m == all[k];
      assert Found(children, at, pattern)[k] in Found(children, at, pattern);
    }
  }

  /** While the bound is not reached, every matching file reachable from the searched directory is reported. */
  lemma SearchMatchesComplete(children: seq<Entry>, at: seq<string>, pattern: string, names: seq<string>)
    requires |Found(children, at, pattern)| <= MaxResults
    requires |names| >= 1 && FileAt(children, names) && NameMatches(names[|names| - 1], pattern)
    ensures Join(at + names, "/") in SearchMatches(children, at, pattern)
  {
    FoundComplete(children, at, pattern, names);
    var found := Found(children, at, pattern);
    var k :| 0 <= k < |found| && found[k] == at + names;
    assert Paths(found)[k] == Join(at + names, "/");
  }

  // ---------------------------------------------------------------- the tool

  /** The directory the tool works on: the root for an empty path, else the sanitized path. */
  function TargetPath(fs: Volume, cwd: string, userPath: string): (r: Result<string>)
    ensures userPath == "" ==> r == Ok(BasePath(fs))
    ensures userPath != "" ==> r == Sanitize.SanitizePath(cwd, userPath, BasePath(fs))
  {
    if userPath != "" then Sanitize.SanitizePath(cwd, userPath, BasePath(fs)) else Ok(BasePath(fs))
  }

  /** The reply to a search: the pattern, the path searched when one was given, the count, and one full path per line. */
  function SearchText(pattern: string, userPath: string, basePath: string, matches: seq<string>): (r: string)
  {
    "Search results for '" + pattern + "'"
    + (if userPath != "" then " in " + userPath else "")
    + " (" + Js.IntToString(|matches|) + " matches):\n\n"
    + Join(MatchLines(basePath, matches), "\n")
  }

  function MatchLines(basePath: string, matches: seq<string>): (r: seq<string>)
    ensures |r| == |matches| && forall i :: 0 <= i < |matches| ==> r[i] == "  " + basePath + "/" + matches[i]
  {
    seq(|matches|, i requires 0 <= i < |matches| => "  " + basePath + "/" + matches[i])
  }

  /**
   * The names `relative` gives from the root to the search directory. A
   * directory outside the root, which the sanitized path never is below a
   * normal root, is searched as if it were the root.
   */
  function SearchAt(fs: Volume, dir: string): seq<string>
  {
    var names := NamesOf(dir);
    if Sanitize.Within(names, fs.baseNames) then names[|fs.baseNames|..] else []
  }

  /**
   * What a search answers: a refused path, or a search directory that is a
   * file or is missing (`readdir` fails with `scandir`), is an error;
   * otherwise the first 50 matches below the directory are reported.
   */
  function SearchReply(fs: Volume, cwd: string, userPath: string, pattern: string): (r: Result<string>)
    ensures TargetPath(fs, cwd, userPath).Err? ==> r == Err(Sanitize.TraversalMessage)
  {
    match TargetPath(fs, cwd, userPath)
    case Err(m) => Err(m)
    case Ok(dir) =>
      match StatPath(fs, dir)
      case Present(Dir(_, _, children)) =>
        Ok(SearchText(pattern, userPath, BasePath(fs),
          SearchMatches(children, SearchAt(fs, dir), pattern)))
      case Present(File(_, _, _)) => Err(FsError(NotADirectory, "scandir", dir))
      case s => Err(FsError(s, "scandir", dir))
  }

  function ListLines(dirs: seq<string>): (r: seq<string>)
    ensures |r| == |dirs| && forall i :: 0 <= i < |dirs| ==> r[i] == "  " + dirs[i]
  {
    seq(|dirs|, i requires 0 <= i < |dirs| => "  " + dirs[i])
  }

  function SizedLines(files: seq<Entry>, sizeText: nat -> string): (r: seq<string>)
    ensures |r| == |files| && forall i :: 0 <= i < |files| ==> r[i] == "  " + files[i].name + " (" + sizeText(files[i].size) + ")"
  {
    seq(|files|, i requires 0 <= i < |files| => "  " + files[i].name + " (" + sizeText(files[i].size) + ")")
  }

  /** The header of a listing: the categories for the root, else the path asked for. */
  function ListHeader(userPath: string): string
  {
    if userPath != "" then "Contents of " + userPath + ":\n\n" else "SecLists categories:\n\n"
  }

  /**
   * What a listing answers: a refused path or a failed `stat` is an error, a
   * file is described with its size and full path, and a directory is listed
   * with its visible subdirectories and files, each group sorted.
   */
  function ListReply(fs: Volume, cwd: string, userPath: string, before: (string, string) -> bool, sizeText: nat -> string): (r: Result<string>)
    ensures TargetPath(fs, cwd, userPath).Err? ==> r == Err(Sanitize.TraversalMessage)
  {
    match TargetPath(fs, cwd, userPath)
    case Err(m) => Err(m)
    case Ok(target) =>
      match StatPath(fs, target)
      case Present(File(_, size, _)) =>
        Ok("'" + userPath + "' is a file (" + sizeText(size) + "). Full path: " + target)
      case Present(Dir(_, _, children)) =>
        Ok(ListingText(ListHeader(userPath),
          ListLines(Sort(DirNames(children), StringOrder())),
          SizedLines(Sort(FileEntries(children), ByName(before)), sizeText)))
      case s => Err(FsError(s, "stat", target))
  }

  /** A pattern given and non-empty selects the search; otherwise the directory is listed. */
  function ToolReply(fs: Volume, cwd: string, userPath: string, pattern: Option<string>,
                     before: (string, string) -> bool, sizeText: nat -> string): (r: Result<string>)
    ensures pattern.Some? && pattern.value != "" ==> r == SearchReply(fs, cwd, userPath, pattern.value)
    ensures !(pattern.Some? && pattern.value != "") ==> r == ListReply(fs, cwd, userPath, before, sizeText)
  {
    if pattern.Some? && pattern.value != "" then SearchReply(fs, cwd, userPath, pattern.value)
    else ListReply(fs, cwd, userPath, before, sizeText)
  }

  /** The `do-list-wordlists` handler. */
  method ListWordlists(fs: Volume, cwd: string, userPath: string, pattern: Option<string>,
                       before: (string, string) -> bool, sizeText: nat -> string)
    returns (r: Result<string>)
    ensures r == ToolReply(fs, cwd, userPath, pattern, before, sizeText)
  {
    if pattern.Some? && pattern.value != "" {
      var searchBase := TargetPath(fs, cwd, userPath);
      if searchBase.Err? {
        return Err(searchBase.msg);
      }
      var dir := searchBase.value;
      var dirStat := StatPath(fs, dir);
      if !dirStat.Present? {
        return Err(FsError(dirStat, "scandir", dir));
      }
      if dirStat.entry.File? {
        return Err(FsError(NotADirectory, "scandir", dir));
      }
      var matches := FindFilesBounded(dirStat.entry.children, SearchAt(fs, dir), pattern.value, [], MaxResults);
      assert [] + Paths(Found(dirStat.entry.children, SearchAt(fs, dir), pattern.value))
        == Paths(Found(dirStat.entry.children, SearchAt(fs, dir), pattern.value));
      return Ok(SearchText(pattern.value, userPath, BasePath(fs), matches));
    }
    var targetPath := TargetPath(fs, cwd, userPath);
    if targetPath.Err? {
      return Err(targetPath.msg);
    }
    var target := targetPath.value;
    var targetStat := StatPath(fs, target);
    if !targetStat.Present? {
      return Err(FsError(targetStat, "stat", target));
    }
    if targetStat.entry.File? {
      return Ok("'" + userPath + "' is a file (" + sizeText(targetStat.entry.size) + "). Full path: " + target);
    }
    var dirs, files := Collect(targetStat.entry.children, before);
    r := Ok(ListingText(ListHeader(userPath), ListLines(dirs), SizedLines(files, sizeText)));
  }

  // ---------------------------------------------------------------- what the replies mean

  /** The sanitizer resolves the root's own path to the root's names. */
  lemma RootBaseNames(fs: Volume, cwd: string)
    requires PosixPath.IsAbsolute(cwd) && PosixPath.Names(fs.baseNames)
    ensures Sanitize.BaseNames(cwd, BasePath(fs)) == fs.baseNames
  {
    PosixPath.AbsolutePieces(fs.baseNames);
  }

  /**
   * A non-empty path is resolved against the root's names: it is refused
   * exactly when it leaves the root, and otherwise the tool works on the
   * directory with the names reached.
   */
  lemma TargetMeaning(fs: Volume, cwd: string, userPath: string)
    requires PosixPath.IsAbsolute(cwd) && PosixPath.Names(fs.baseNames) && userPath != ""
    ensures var t := PosixPath.Locate(fs.baseNames, userPath);
      && PosixPath.Names(t)
      && TargetPath(fs, cwd, userPath) ==
        (if Sanitize.Within(t, fs.baseNames) then Ok("/" + Join(t, "/")) else Err(Sanitize.TraversalMessage))
      && NamesOf("/" + Join(t, "/")) == t
  {
    RootBaseNames(fs, cwd);
    Sanitize.SanitizePathMeaning(cwd, userPath, BasePath(fs));
    PosixPath.AbsolutePieces(PosixPath.Locate(fs.baseNames, userPath));
  }

  /** A path leaving the root is refused, by the search and by the listing alike. */
  lemma EscapeRefused(fs: Volume, cwd: string, userPath: string, pattern: Option<string>,
                      before: (string, string) -> bool, sizeText: nat -> string)
    requires PosixPath.IsAbsolute(cwd) && PosixPath.Names(fs.baseNames) && userPath != ""
    requires !Sanitize.Within(PosixPath.Locate(fs.baseNames, userPath), fs.baseNames)
    ensures ToolReply(fs, cwd, userPath, pattern, before, sizeText) == Err(Sanitize.TraversalMessage)
  {
    TargetMeaning(fs, cwd, userPath);
  }

  /** With no path, the search covers the whole tree, with paths relative to the root. */
  lemma SearchWholeTree(fs: Volume, cwd: string, pattern: string)
    requires PosixPath.Names(fs.baseNames)
    ensures SearchReply(fs, cwd, "", pattern)
      == Ok(SearchText(pattern, "", BasePath(fs), SearchMatches(fs.entries, [], pattern)))
  {
    StatBase(fs);
    PosixPath.AbsolutePieces(fs.baseNames);
    assert NamesOf(BasePath(fs))[|fs.baseNames|..] == [];
  }

  /** With no path, the listing shows the root's entries under the categories header. */
  lemma ListRoot(fs: Volume, cwd: string, before: (string, string) -> bool, sizeText: nat -> string)
    requires PosixPath.Names(fs.baseNames)
    ensures ListReply(fs, cwd, "", before, sizeText)
      == Ok(ListingText("SecLists categories:\n\n",
           ListLines(Sort(DirNames(fs.entries), StringOrder())),
           SizedLines(Sort(FileEntries(fs.entries), ByName(before)), sizeText)))
  {
    StatBase(fs);
  }
}
