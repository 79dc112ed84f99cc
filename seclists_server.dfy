/**
 * The stand-alone SecLists server: list the categories, list one directory,
 * search file names, give a wordlist's absolute path, and read a wordlist,
 * all below the SecLists directory it was started with.
 */
module SeclistsServer {
  import opened Wrappers
  import opened Text
  import Js
  import opened PosixPath
  import Sanitize
  import opened DirTree

  // ---------------------------------------------------------------- safePath

  /**
   * The containment check as written: `path.join(root, userPath)` is accepted
   * when it starts with the root as a plain string, so a sibling whose name
   * extends the root's last name slips through.
   */
  function SafePathAsWritten(root: string, userPath: string): (r: Result<string>)
    ensures r.Ok? ==> StartsWith(r.value, root)
    ensures r.Err? ==> r.msg == Sanitize.TraversalMessage
  {
    var resolved := JoinPaths([root, userPath]);
    if !StartsWith(resolved, root) then Err(Sanitize.TraversalMessage) else Ok(resolved)
  }

  /** The check as intended: the joined path is the root itself or lies below it, past a '/'. */
  function SafePath(root: string, userPath: string): (r: Result<string>)
    ensures r.Ok? ==> r.value == root || StartsWith(r.value, root + "/")
    ensures r.Err? ==> r.msg == Sanitize.TraversalMessage
  {
    var resolved := JoinPaths([root, userPath]);
    if resolved != root && !StartsWith(resolved, root + "/") then Err(Sanitize.TraversalMessage)
    else Ok(resolved)
  }

  /** The names `path.join(root, userPath)` reaches from the root's names: `userPath` is read relative even when it starts with '/'. */
  function Joined(rootNames: seq<string>, userPath: string): seq<string>
  {
    Fold(rootNames, Split(userPath, '/'), false)
  }

  /** The path string of a list of root names. */
  function PathOf(rootNames: seq<string>): string
  {
    "/" + Join(rootNames, "/")
  }

  /** `path.join` of a normal absolute root and `userPath`: '/', the joined names, and a trailing '/' when `userPath` has one. */
  lemma JoinUnderRoot(rootNames: seq<string>, userPath: string)
    requires |rootNames| >= 1 && Names(rootNames)
    ensures Names(Joined(rootNames, userPath))
    ensures JoinPaths([PathOf(rootNames), userPath])
      == Render(true, |userPath| > 0 && userPath[|userPath| - 1] == '/', Join(Joined(rootNames, userPath), "/"))
  {
    var root := PathOf(rootNames);
    DirTree.JoinLastChar(rootNames);
    AbsolutePieces(rootNames);
    SplitPiecesFreeOfSep(userPath, '/');
    FoldShape(rootNames, Split(userPath, '/'), false);
    assert root != "" && root[0] == '/';
    assert root[|root| - 1] != '/';
    if userPath == "" {
      assert NonEmptyParts([root, userPath]) == [root] by {
        assert [root, userPath][1..] == [userPath];
        assert NonEmptyParts([userPath]) == [];
      }
      assert Join([root], "/") == root;
      assert Split(userPath, '/') == [""];
      assert Fold(rootNames, [""], false) == rootNames;
    } else {
      RootThenUser(root, userPath);
      var p := root + "/" + userPath;
      assert p[0] == '/' && p[|p| - 1] == userPath[|userPath| - 1];
      SplitAppend(root, userPath, '/');
      FoldAppend([], Split(root, '/'), Split(userPath, '/'), false);
    }
  }

  lemma RootThenUser(root: string, userPath: string)
    requires root != "" && userPath != ""
    ensures JoinPaths([root, userPath]) == Normalize(root + "/" + userPath)
  {
    assert [root, userPath][1..] == [userPath];
    assert [userPath][1..] == [];
    assert NonEmptyParts([userPath]) == [userPath] + NonEmptyParts([]);
    assert NonEmptyParts([root, userPath]) == [root] + NonEmptyParts([userPath]);
    assert Join([userPath], "/") == userPath;
    assert Join([root, userPath], "/") == root + "/" + userPath;
    var kept := NonEmptyParts([root, userPath]);
    assert kept == [root, userPath];
    assert JoinPaths([root, userPath]) == Normalize(Join(kept, "/"));
  }

  lemma StartsWithSlash(x: string, b: string)
    ensures StartsWith(x + "/", b + "/") <==> x == b || StartsWith(x, b + "/")
  {
    if StartsWith(x + "/", b + "/") && |x| == |b| {
      assert x == (x + "/")[..|b|] == b;
    }
    if StartsWith(x + "/", b + "/") && |x| > |b| {
      assert (x + "/")[..|b| + 1] == x[..|b| + 1];
    }
  }

  /**
   * What the corrected check means, name by name: the user path is joined
   * below the root's names and accepted, with `path.join`'s result, exactly
   * when it stays at or below the root.
   */
  lemma SafePathMeaning(rootNames: seq<string>, userPath: string)
    requires |rootNames| >= 1 && Names(rootNames)
    ensures SafePath(PathOf(rootNames), userPath) ==
      if Sanitize.Within(Joined(rootNames, userPath), rootNames)
      then Ok(JoinPaths([PathOf(rootNames), userPath]))
      else Err(Sanitize.TraversalMessage)
  {
    var root := PathOf(rootNames);
    var j := Joined(rootNames, userPath);
    var t := |userPath| > 0 && userPath[|userPath| - 1] == '/';
    JoinUnderRoot(rootNames, userPath);
    DirTree.JoinLastChar(rootNames);
    var resolved := JoinPaths([root, userPath]);
    assert Components(rootNames) && Components(j);
    if j == [] {
      assert resolved == "/";
      assert !Sanitize.Within(j, rootNames);
    } else {
      var x := "/" + Join(j, "/");
      assert resolved == x + (if t then "/" else "");
      JoinComponentsInjective(j, rootNames);
      assert x == root <==> j == rootNames by {
        if x == root { assert x[1..] == root[1..]; }
      }
      JoinPrefix(rootNames, j);
      assert StartsWith(x, root + "/") <==> StartsWith(Join(j, "/"), Join(rootNames, "/") + "/") by {
        assert root + "/" == "/" + (Join(rootNames, "/") + "/");
        StartsWithSharedHead("/", Join(j, "/"), Join(rootNames, "/") + "/");
      }
      if t {
        StartsWithSlash(x, root);
        assert resolved[|resolved| - 1] == '/';
        assert resolved != root;
      }
    }
  }

  /** The plain-prefix check passes everything the corrected check passes; it only lets more through. */
  lemma SafePathAsWrittenWeaker(root: string, userPath: string)
    requires SafePath(root, userPath).Ok?
    ensures SafePathAsWritten(root, userPath) == SafePath(root, userPath)
  {
    var resolved := JoinPaths([root, userPath]);
    if resolved != root {
      assert resolved[..|root|] == (root + "/")[..|root|] == root;
    }
  }

  /** With the root "/s", the path "../s2" reaches the sibling "/s2": the check as written accepts it, the corrected one refuses it. */
  lemma SafePathAsWrittenEscapes()
    ensures SafePathAsWritten("/s", "../s2") == Ok("/s2")
    ensures !Sanitize.Within(Joined(["s"], "../s2"), ["s"])
    ensures SafePath("/s", "../s2") == Err(Sanitize.TraversalMessage)
  {
    SiblingJoined();
    SiblingPath();
    SafePathMeaning(["s"], "../s2");
  }

  lemma SiblingJoined()
    ensures Names(["s"]) && PathOf(["s"]) == "/s"
    ensures Joined(["s"], "../s2") == ["s2"]
  {
    assert Names(["s"]) by { assert !HasChar("s", '/'); }
    assert FreeOf(["..", "s2"], '/') by { assert !HasChar("..", '/') && !HasChar("s2", '/'); }
    assert Join(["..", "s2"], "/") == "../s2";
    SplitJoin(["..", "s2"], '/');
    assert Step(["s"], "..", false) == [];
    assert Fold([], ["s2"], false) == ["s2"];
  }

  lemma SiblingPath()
    ensures JoinPaths(["/s", "../s2"]) == "/s2"
  {
    SiblingJoined();
    JoinUnderRoot(["s"], "../s2");
    assert Join(["s2"], "/") == "s2";
  }

  /** The names `stat` reads off `path.join(root, userPath)` are the joined names. */
  lemma JoinedNamesOf(rootNames: seq<string>, userPath: string)
    requires |rootNames| >= 1 && Names(rootNames)
    ensures DirTree.NamesOf(JoinPaths([PathOf(rootNames), userPath])) == Joined(rootNames, userPath)
  {
    var j := Joined(rootNames, userPath);
    var t := |userPath| > 0 && userPath[|userPath| - 1] == '/';
    JoinUnderRoot(rootNames, userPath);
    if j == [] {
      assert Join(j, "/") == "";
      RenderNothing(true, t, []);
    } else {
      assert Components(j) by {
        forall i | 0 <= i < |j| ensures Component(j[i]) { assert Name(j[i]); }
      }
      RenderSomething(true, t, j);
      var tail := if t then [""] else [];
      FoldAppend([], [""] + j, tail, false);
      FoldAppend([], [""], j, false);
      FoldSkipped([], [""]);
      FoldNames([], j, false);
      assert [] + j == j;
      FoldSkipped(j, tail);
    }
  }

  /**
   * Inside the root the check as written agrees with the intended one: it
   * accepts `path.join`'s result, whose names are the joined names.
   */
  lemma AsWrittenInside(rootNames: seq<string>, userPath: string)
    requires |rootNames| >= 1 && Names(rootNames)
    requires Sanitize.Within(Joined(rootNames, userPath), rootNames)
    ensures SafePathAsWritten(PathOf(rootNames), userPath) == SafePath(PathOf(rootNames), userPath)
    ensures SafePathAsWritten(PathOf(rootNames), userPath) == Ok(JoinPaths([PathOf(rootNames), userPath]))
    ensures DirTree.NamesOf(SafePathAsWritten(PathOf(rootNames), userPath).value) == Joined(rootNames, userPath)
  {
    SafePathMeaning(rootNames, userPath);
    SafePathAsWrittenWeaker(PathOf(rootNames), userPath);
    JoinedNamesOf(rootNames, userPath);
  }

  /**
   * Whatever the check as written lets out of the root is `stat`ed in the
   * rest of the file system, at the names the join reaches.
   */
  lemma AsWrittenOutside(fs: Volume, userPath: string)
    requires |fs.baseNames| >= 1 && Names(fs.baseNames)
    requires !Sanitize.Within(Joined(fs.baseNames, userPath), fs.baseNames)
    requires SafePathAsWritten(BasePath(fs), userPath).Ok?
    ensures var target := SafePathAsWritten(BasePath(fs), userPath).value;
      StatPath(fs, target) == fs.elsewhere(Joined(fs.baseNames, userPath), Trailing(target))
  {
    assert BasePath(fs) == PathOf(fs.baseNames);
    JoinedNamesOf(fs.baseNames, userPath);
  }

  // ---------------------------------------------------------------- seclists-list-categories

  /** A top-level category: a directory that is not hidden and is not `node_modules`. */
  predicate IsCategory(e: Entry)
  {
    e.Dir? && !Hidden(e.name) && e.name != "node_modules"
  }

  function CategoryNames(es: seq<Entry>): (r: seq<string>)
    decreases |es|
  {
    if |es| == 0 then []
    else
      var e := es[|es| - 1];
      CategoryNames(es[..|es| - 1]) + (if IsCategory(e) then [e.name] else [])
  }

  lemma {:induction false} CategoryNamesMembers(es: seq<Entry>)
    ensures forall n :: n in CategoryNames(es) <==> exists e :: e in es && IsCategory(e) && n == e.name
    decreases |es|
  {
    if |es| > 0 {
      var init := es[..|es| - 1];
      CategoryNamesMembers(init);
      assert es == init + [es[|es| - 1]];
    }
  }

  /** The categories, sorted. */
  function Categories(fs: Volume): (r: seq<string>)
  {
    Sort(CategoryNames(fs.entries), StringOrder())
  }

  /**
   * The reply of `seclists-list-categories`: the number of visible top-level
   * directories, then those directories' names in sorted order, one per line.
   */
  function ListCategories(fs: Volume): (r: string)
    ensures exists cats: seq<string> ::
      Sorted(cats, StringOrder())
      && |cats| == |CategoryNames(fs.entries)|
      && (forall n :: n in cats <==> exists e :: e in fs.entries && IsCategory(e) && n == e.name)
      && r == "SecLists categories (" + Js.IntToString(|CategoryNames(fs.entries)|) + "):\n\n" + Join(cats, "\n")
  {
    CategoriesMeaning(fs);
    "SecLists categories (" + Js.IntToString(|Categories(fs)|) + "):\n\n" + Join(Categories(fs), "\n")
  }

  /** The categories are sorted and are exactly the visible top-level directories other than `node_modules`. */
  lemma CategoriesMeaning(fs: Volume)
    ensures Sorted(Categories(fs), StringOrder())
    ensures forall n :: n in Categories(fs) <==> exists e :: e in fs.entries && IsCategory(e) && n == e.name
    ensures |Categories(fs)| == |CategoryNames(fs.entries)|
  {
    SortSorted(CategoryNames(fs.entries), StringOrder());
    CategoryNamesMembers(fs.entries);
    var c := Categories(fs);
    forall n ensures n in c <==> n in CategoryNames(fs.entries) {
      assert n in c <==> n in multiset(c);
      assert n in CategoryNames(fs.entries) <==> n in multiset(CategoryNames(fs.entries));
    }
    assert |multiset(c)| == |multiset(CategoryNames(fs.entries))|;
  }

  // ---------------------------------------------------------------- seclists-list-wordlists

  function DirLine(d: string): string
  {
    "  \U{1F4C1} " + d
  }

  function FileLine(f: Entry, sizeText: nat -> string): string
  {
    "  \U{1F4C4} " + f.name + " (" + sizeText(f.size) + ")"
  }

  function DirLines(dirs: seq<string>): (r: seq<string>)
    ensures |r| == |dirs| && forall i :: 0 <= i < |dirs| ==> r[i] == DirLine(dirs[i])
  {
    seq(|dirs|, i requires 0 <= i < |dirs| => DirLine(dirs[i]))
  }

  function FileLines(files: seq<Entry>, sizeText: nat -> string): (r: seq<string>)
    ensures |r| == |files| && forall i :: 0 <= i < |files| ==> r[i] == FileLine(files[i], sizeText)
  {
    seq(|files|, i requires 0 <= i < |files| => FileLine(files[i], sizeText))
  }

  /** The reply for a directory's entries. */
  function ContentsText(userPath: string, children: seq<Entry>, before: (string, string) -> bool, sizeText: nat -> string): string
  {
    ListingText("Contents of " + userPath + ":\n\n",
      DirLines(Sort(DirNames(children), StringOrder())),
      FileLines(Sort(FileEntries(children), ByName(before)), sizeText))
  }

  /**
   * What `seclists-list-wordlists` answers: a path the check as written
   * refuses or a failed `stat` is an error; a file gets a one-line refusal;
   * a directory gets its listing. `before` is the collation `localeCompare`
   * sorts files with, and `sizeText` is `formatSize`.
   */
  function WordlistsReply(fs: Volume, userPath: string, before: (string, string) -> bool, sizeText: nat -> string): (r: Result<string>)
    ensures SafePathAsWritten(BasePath(fs), userPath).Err? ==> r == Err(Sanitize.TraversalMessage)
    ensures r.Ok? ==> (SafePathAsWritten(BasePath(fs), userPath).Ok?
      && StatPath(fs, SafePathAsWritten(BasePath(fs), userPath).value).Present?)
    ensures SafePathAsWritten(BasePath(fs), userPath).Ok? ==>
      var target := SafePathAsWritten(BasePath(fs), userPath).value;
      var s := StatPath(fs, target);
      (!s.Present? ==> r == Err(FsError(s, "stat", target)))
      && (s.Present? && s.entry.File? ==> r == Ok("Error: '" + userPath + "' is not a directory"))
  {
    match SafePathAsWritten(BasePath(fs), userPath)
    case Err(m) => Err(m)
    case Ok(target) =>
      match StatPath(fs, target)
      case Present(File(_, _, _)) => Ok("Error: '" + userPath + "' is not a directory")
      case Present(Dir(_, _, children)) => Ok(ContentsText(userPath, children, before, sizeText))
      case s => Err(FsError(s, "stat", target))
  }

  /** The `seclists-list-wordlists` handler: checks the path, `stat`s it, and lists a directory with the collecting loop. */
  method ListWordlists(fs: Volume, userPath: string, before: (string, string) -> bool, sizeText: nat -> string)
    returns (r: Result<string>)
    ensures r == WordlistsReply(fs, userPath, before, sizeText)
  {
    var checked := SafePathAsWritten(BasePath(fs), userPath);
    if checked.Err? {
      return Err(checked.msg);
    }
    var targetPath := checked.value;
    var targetStat := StatPath(fs, targetPath);
    if !targetStat.Present? {
      return Err(FsError(targetStat, "stat", targetPath));
    }
    if targetStat.entry.File? {
      return Ok("Error: '" + userPath + "' is not a directory");
    }
    var dirs, files := Collect(targetStat.entry.children, before);
    r := Ok(ListingText("Contents of " + userPath + ":\n\n", DirLines(dirs), FileLines(files, sizeText)));
  }

  /** Nothing is listed exactly when every entry is hidden. */
  lemma {:induction false} NothingVisible(es: seq<Entry>)
    ensures |DirNames(es)| + |FileEntries(es)| == 0 <==> forall e :: e in es ==> Hidden(e.name)
    decreases |es|
  {
    if |es| > 0 {
      NothingVisible(es[..|es| - 1]);
      assert es == es[..|es| - 1] + [es[|es| - 1]];
    }
  }

  lemma SortLength<T>(xs: seq<T>, le: (T, T) -> bool)
    ensures |Sort(xs, le)| == |xs|
  {
    assert |multiset(Sort(xs, le))| == |multiset(xs)|;
  }

  /** A directory with no visible entries is listed as "(empty)", and only such a directory. */
  lemma ContentsEmpty(userPath: string, children: seq<Entry>, before: (string, string) -> bool, sizeText: nat -> string)
    ensures ContentsText(userPath, children, before, sizeText) == "Contents of " + userPath + ":\n\n" + "(empty)"
      <==> forall e :: e in children ==> Hidden(e.name)
  {
    var dirs := Sort(DirNames(children), StringOrder());
    var files := Sort(FileEntries(children), ByName(before));
    var header := "Contents of " + userPath + ":\n\n";
    ListingEmpty(header, DirLines(dirs), FileLines(files, sizeText));
    SortLength(DirNames(children), StringOrder());
    SortLength(FileEntries(children), ByName(before));
    NothingVisible(children);
  }

  // ---------------------------------------------------------------- seclists-search

  /**
   * The recursive search: every file whose lower-cased name contains the
   * lower-cased pattern is pushed onto `results` as its path relative to the
   * root; `.git` and `node_modules` directories are not entered.
   */
  method FindFiles(entries: seq<Entry>, at: seq<string>, pattern: string, results: seq<string>)
    returns (r: seq<string>)
    ensures r == results + Paths(Found(entries, at, pattern))
    decreases entries
  {
    r := results;
    for i := 0 to |entries|
      invariant r == results + Paths(Found(entries[..i], at, pattern))
    {
      FoundStep(entries, i, at, pattern);
      r := FindIn(entries[i], at, pattern, r);
      AppendAssoc(results, Paths(Found(entries[..i], at, pattern)), Paths(FoundIn(entries[i], at, pattern)));
    }
    assert entries[..|entries|] == entries;
  }

  /** One entry of the search: a matching file is pushed, a directory not skipped is searched in turn. */
  method FindIn(entry: Entry, at: seq<string>, pattern: string, results: seq<string>)
    returns (r: seq<string>)
    ensures r == results + Paths(FoundIn(entry, at, pattern))
    decreases entry
  {
    match entry
    case Dir(name, _, children) =>
      if Skipped(name) {
        r := results;
      } else {
        r := FindFiles(children, at + [name], pattern, results);
      }
    case File(name, _, _) =>
      if NameMatches(name, pattern) {
        r := results + [Join(at + [name], "/")];
      } else {
        r := results;
      }
  }

  /** `max_results ?? 50`. */
  function SearchLimit(maxResults: Option<int>): int
  {
    if maxResults.Some? then maxResults.value else 50
  }

  /** The header of a search reply, with the "showing first" note when one is given. */
  function SearchHeader(pattern: string, total: nat, shown: Option<int>): string
  {
    "Search results for '" + pattern + "' (" + Js.IntToString(total) + " total"
    + (if shown.Some? then ", showing first " + Js.IntToString(shown.value) else "")
    + "):\n\n"
  }

  /**
   * The reply of `seclists-search` for the matches found: the full count, the
   * first `limit` matches one per line, and a note exactly when the count
   * exceeds the limit. A negative limit, as `slice` reads it, drops that many
   * matches from the end, and the note always appears.
   */
  function SearchText(matches: seq<string>, pattern: string, limit: int): (r: string)
    ensures 0 <= limit ==>
      r == SearchHeader(pattern, |matches|, if |matches| > limit then Some(limit) else None)
        + Join(Cap(matches, limit), "\n")
    ensures limit < 0 ==>
      r == SearchHeader(pattern, |matches|, Some(limit))
        + Join(matches[..if |matches| + limit > 0 then |matches| + limit else 0], "\n")
  {
    var limited := Js.SliceTo(matches, limit);
    "Search results for '" + pattern + "' (" + Js.IntToString(|matches|) + " total"
    + (if |matches| > limit then ", showing first " + Js.IntToString(limit) else "")
    + "):\n\n" + Join(limited, "\n")
  }

  /** The `seclists-search` handler: search from the root, then cut the list at the limit. */
  method Search(fs: Volume, pattern: string, maxResults: Option<int>) returns (text: string)
    ensures text == SearchText(Paths(Found(fs.entries, [], pattern)), pattern, SearchLimit(maxResults))
  {
    var limit := SearchLimit(maxResults);
    var matches := FindFiles(fs.entries, [], pattern, []);
    assert matches == Paths(Found(fs.entries, [], pattern));
    text := SearchText(matches, pattern, limit);
  }

  // ---------------------------------------------------------------- seclists-get-path

  /**
   * What `seclists-get-path` answers: the absolute path the check as written
   * accepted, the size, and whether it is a directory or a file; a refused
   * path or a failed `stat` is an error.
   */
  function GetPath(fs: Volume, userPath: string, sizeText: nat -> string): (r: Result<string>)
    ensures SafePathAsWritten(BasePath(fs), userPath).Err? ==> r == Err(Sanitize.TraversalMessage)
    ensures r.Ok? ==> (SafePathAsWritten(BasePath(fs), userPath).Ok?
      && StartsWith(r.value, "Absolute path: " + SafePathAsWritten(BasePath(fs), userPath).value + "\nSize: "))
    ensures SafePathAsWritten(BasePath(fs), userPath).Ok? ==>
      var target := SafePathAsWritten(BasePath(fs), userPath).value;
      var s := StatPath(fs, target);
      r == if s.Present?
        then Ok("Absolute path: " + target + "\nSize: " + sizeText(s.entry.size)
          + "\nType: " + (if s.entry.Dir? then "directory" else "file"))
        else Err(FsError(s, "stat", target))
  {
    match SafePathAsWritten(BasePath(fs), userPath)
    case Err(m) => Err(m)
    case Ok(target) =>
      match StatPath(fs, target)
      case Present(e) =>
        var head := "Absolute path: " + target + "\nSize: ";
        var text := head + sizeText(e.size) + "\nType: " + (if e.Dir? then "directory" else "file");
        StartsWithFront(head, sizeText(e.size) + "\nType: " + (if e.Dir? then "directory" else "file"));
        Ok(text)
      case s => Err(FsError(s, "stat", target))
  }

  lemma StartsWithFront(head: string, rest: string)
    ensures StartsWith(head + rest, head)
  {
    assert (head + rest)[..|head|] == head;
  }

  // ---------------------------------------------------------------- seclists-read-wordlist

  /** `max_lines ?? 500`. */
  function LineLimit(maxLines: Option<int>): int
  {
    if maxLines.Some? then maxLines.value else 500
  }

  /** The first `limit` lines of `content`, joined back with newlines. */
  function Preview(content: string, limit: int): string
  {
    Join(Js.SliceTo(Split(content, '\n'), limit), "\n")
  }

  /** The first lines of the reply: the path, the line count (one more than the number of newlines), and the size. */
  function ReadHeader(userPath: string, content: string, size: string): string
  {
    "File: " + userPath + "\nTotal lines: " + Js.IntToString(CountChar(content, '\n') + 1) + "\nSize: " + size
  }

  /** The line between the counts and the preview: a note when the file has more lines than the limit, a blank line otherwise. */
  function ReadNote(content: string, limit: int): string
  {
    if CountChar(content, '\n') + 1 > limit then "Showing first " + Js.IntToString(limit) + " lines:\n\n" else "\n"
  }

  /**
   * The reply for a file's content: the counts alone for a zero limit,
   * otherwise the counts, the note when the file has more lines than the
   * limit (a blank line when it has not), and the preview.
   */
  function ReadText(userPath: string, content: string, size: string, limit: int): (r: string)
    ensures limit == 0 ==> r == ReadHeader(userPath, content, size)
    ensures limit != 0 ==> StartsWith(r, ReadHeader(userPath, content, size) + "\n") && EndsWith(r, Preview(content, limit))
    ensures limit != 0 ==> r == ReadHeader(userPath, content, size) + "\n" + ReadNote(content, limit) + Preview(content, limit)
  {
    SplitCount(content, '\n');
    var lines := Split(content, '\n');
    var totalLines := |lines|;
    var head := "File: " + userPath + "\nTotal lines: " + Js.IntToString(totalLines) + "\nSize: " + size;
    if limit == 0 then head
    else
      var note := if totalLines > limit then "Showing first " + Js.IntToString(limit) + " lines:\n\n" else "\n";
      ThreeParts(head + "\n", note, Preview(content, limit));
      head + "\n" + note + Preview(content, limit)
  }

  /**
   * With a non-zero limit, the counts are followed by "Showing first N lines:"
   * exactly when the file has more lines than the limit.
   */
  lemma ReadTextNote(userPath: string, content: string, size: string, limit: int)
    requires limit != 0
    ensures var head := ReadHeader(userPath, content, size) + "\n";
      var r := ReadText(userPath, content, size, limit);
      StartsWith(r, head)
      && (StartsWith(r[|head|..], "Showing first " + Js.IntToString(limit) + " lines:")
          <==> CountChar(content, '\n') + 1 > limit)
  {
    var head := ReadHeader(userPath, content, size) + "\n";
    var note, rest := ReadNote(content, limit), Preview(content, limit);
    var r := ReadText(userPath, content, size, limit);
    var shown := "Showing first " + Js.IntToString(limit) + " lines:";
    assert r[..|head|] == head;
    assert r[|head|..] == note + rest;
    if CountChar(content, '\n') + 1 > limit {
      assert note == shown + "\n\n";
      assert (note + rest)[..|shown|] == shown;
    } else {
      assert (note + rest)[0] == '\n' != shown[0];
    }
  }

  lemma ThreeParts(a: string, b: string, c: string)
    ensures StartsWith(a + b + c, a) && EndsWith(a + b + c, c)
  {
    assert (a + b + c)[..|a|] == a;
    assert (a + b + c)[|a + b|..] == c;
  }

  /**
   * What `seclists-read-wordlist` answers: a path the check as written
   * refuses or a failed `stat` is an error; a directory gets a refusal, a
   * file its counts and preview.
   */
  function ReadWordlist(fs: Volume, userPath: string, maxLines: Option<int>, sizeText: nat -> string): (r: Result<string>)
    ensures SafePathAsWritten(BasePath(fs), userPath).Err? ==> r == Err(Sanitize.TraversalMessage)
    ensures r.Ok? ==> (SafePathAsWritten(BasePath(fs), userPath).Ok?
      && StatPath(fs, SafePathAsWritten(BasePath(fs), userPath).value).Present?)
    ensures SafePathAsWritten(BasePath(fs), userPath).Ok? ==>
      var target := SafePathAsWritten(BasePath(fs), userPath).value;
      var s := StatPath(fs, target);
      (!s.Present? ==> r == Err(FsError(s, "stat", target)))
      && (s.Present? && s.entry.Dir? ==>
        r == Ok("Error: '" + userPath + "' is a directory, not a file. Use seclists-list-wordlists instead."))
  {
    match SafePathAsWritten(BasePath(fs), userPath)
    case Err(m) => Err(m)
    case Ok(target) =>
      match StatPath(fs, target)
      case Present(Dir(_, _, _)) =>
        Ok("Error: '" + userPath + "' is a directory, not a file. Use seclists-list-wordlists instead.")
      case Present(File(_, size, content)) => Ok(ReadText(userPath, content, sizeText(size), LineLimit(maxLines)))
      case s => Err(FsError(s, "stat", target))
  }

  /**
   * Past the root the handlers do not answer with the traversal error: they
   * serve what exists at the path the check as written let through, and
   * answer with `stat`'s error only when nothing is there.
   */
  lemma HandlersOutside(fs: Volume, userPath: string, before: (string, string) -> bool, sizeText: nat -> string,
                        maxLines: Option<int>)
    requires |fs.baseNames| >= 1 && Names(fs.baseNames)
    requires !Sanitize.Within(Joined(fs.baseNames, userPath), fs.baseNames)
    requires SafePathAsWritten(BasePath(fs), userPath).Ok?
    ensures var target := SafePathAsWritten(BasePath(fs), userPath).value;
      var s := fs.elsewhere(Joined(fs.baseNames, userPath), Trailing(target));
      (s.Present? ==> GetPath(fs, userPath, sizeText) == Ok("Absolute path: " + target + "\nSize: "
        + sizeText(s.entry.size) + "\nType: " + (if s.entry.Dir? then "directory" else "file")))
      && (s.Present? && s.entry.Dir? ==>
        WordlistsReply(fs, userPath, before, sizeText) == Ok(ContentsText(userPath, s.entry.children, before, sizeText)))
      && (s.Present? && s.entry.File? ==>
        ReadWordlist(fs, userPath, maxLines, sizeText)
          == Ok(ReadText(userPath, s.entry.content, sizeText(s.entry.size), LineLimit(maxLines))))
      && (!s.Present? ==>
        var e := Err(FsError(s, "stat", target));
        WordlistsReply(fs, userPath, before, sizeText) == e
        && GetPath(fs, userPath, sizeText) == e
        && ReadWordlist(fs, userPath, maxLines, sizeText) == e)
  {
    AsWrittenOutside(fs, userPath);
  }

  /**
   * The sibling a plain prefix lets through: under the root "/s" the path
   * "../s2" is joined to "/s2", and whatever is there is served: a directory
   * is listed, any entry is sized, and a file is read.
   */
  lemma HandlersSibling(fs: Volume, e: Entry, before: (string, string) -> bool,
                        sizeText: nat -> string, maxLines: Option<int>)
    requires fs.baseNames == ["s"] && fs.elsewhere(["s2"], false) == Present(e)
    ensures GetPath(fs, "../s2", sizeText)
      == Ok("Absolute path: " + "/s2" + "\nSize: " + sizeText(e.size) + "\nType: " + (if e.Dir? then "directory" else "file"))
    ensures e.Dir? ==> WordlistsReply(fs, "../s2", before, sizeText) == Ok(ContentsText("../s2", e.children, before, sizeText))
    ensures e.File? ==>
      ReadWordlist(fs, "../s2", maxLines, sizeText) == Ok(ReadText("../s2", e.content, sizeText(e.size), LineLimit(maxLines)))
  {
    SiblingStat(fs, e);
    SiblingSized(fs, e, sizeText);
  }

  lemma SiblingStat(fs: Volume, e: Entry)
    requires fs.baseNames == ["s"] && fs.elsewhere(["s2"], false) == Present(e)
    ensures SafePathAsWritten(BasePath(fs), "../s2") == Ok("/s2")
    ensures StatPath(fs, "/s2") == Present(e)
  {
    SiblingAccepted(fs);
    AsWrittenOutside(fs, "../s2");
    assert !Trailing("/s2");
  }

  lemma SiblingSized(fs: Volume, e: Entry, sizeText: nat -> string)
    requires SafePathAsWritten(BasePath(fs), "../s2") == Ok("/s2") && StatPath(fs, "/s2") == Present(e)
    ensures GetPath(fs, "../s2", sizeText)
      == Ok("Absolute path: " + "/s2" + "\nSize: " + sizeText(e.size) + "\nType: " + (if e.Dir? then "directory" else "file"))
  {
  }

  lemma SiblingAccepted(fs: Volume)
    requires fs.baseNames == ["s"]
    ensures Names(fs.baseNames)
    ensures Joined(fs.baseNames, "../s2") == ["s2"]
    ensures !Sanitize.Within(Joined(fs.baseNames, "../s2"), fs.baseNames)
    ensures SafePathAsWritten(BasePath(fs), "../s2") == Ok("/s2")
  {
    SiblingJoined();
    SafePathAsWrittenEscapes();
    assert BasePath(fs) == PathOf(["s"]);
  }

  /** A limit at or above the line count previews the whole file. */
  lemma PreviewWhole(content: string, limit: int)
    requires limit >= |Split(content, '\n')|
    ensures Preview(content, limit) == content
  {
    assert Js.SliceTo(Split(content, '\n'), limit) == Split(content, '\n');
    JoinSplit(content, '\n');
  }

  /** A smaller positive limit previews the first `limit` lines: the file is the preview, a newline, and the remaining lines. */
  lemma PreviewPrefix(content: string, limit: int)
    requires 0 < limit < |Split(content, '\n')|
    ensures content == Preview(content, limit) + "\n" + Join(Split(content, '\n')[limit..], "\n")
  {
    var lines := Split(content, '\n');
    JoinSplit(content, '\n');
    JoinAppend(lines[..limit], lines[limit..], "\n");
    assert lines[..limit] + lines[limit..] == lines;
  }
}
