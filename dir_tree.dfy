/**
 * The SecLists directory tree as the wordlist tools see it through `readdir`
 * and `stat`, with what both SecLists front ends do with it: the recursive
 * search for file names, the stable sorts, and the listing of one directory.
 */
module DirTree {
  import opened Wrappers
  import opened Text
  import Js
  import PosixPath
  import Sanitize

  /** A directory entry; `readdir` hands out `children` in this order. */
  datatype Entry =
    | File(name: string, size: nat, content: string)
    | Dir(name: string, size: nat, children: seq<Entry>)

  /** Directories the search never enters. */
  predicate Skipped(name: string)
  {
    name == ".git" || name == "node_modules"
  }

  /** Hidden entries: names starting with a dot. */
  predicate Hidden(name: string)
  {
    StartsWith(name, ".")
  }

  // ---------------------------------------------------------------- stat

  /** What `stat` reports for a path. */
  datatype Stat = Present(entry: Entry) | NoEntry | NotADirectory

  function FindChild(es: seq<Entry>, name: string): (r: Option<Entry>)
    ensures r.Some? ==> r.value in es && r.value.name == name
    ensures r.None? ==> forall i :: 0 <= i < |es| ==> es[i].name != name
  {
    if |es| == 0 then None
    else if es[0].name == name then Some(es[0])
    else FindChild(es[1..], name)
  }

  /**
   * Walking the names `rel` down from `e`: a missing name is `ENOENT`, a name
   * below a file is `ENOTDIR`, and so is a trailing '/' after a file.
   */
  function Walk(e: Entry, rel: seq<string>, trailing: bool): (r: Stat)
    ensures rel == [] ==> r == (if trailing && e.File? then NotADirectory else Present(e))
    ensures rel != [] && e.File? ==> r == NotADirectory
    decreases e
  {
    if rel == [] then (if trailing && e.File? then NotADirectory else Present(e))
    else if e.File? then NotADirectory
    else
      match FindChild(e.children, rel[0])
      case None => NoEntry
      case Some(c) => Walk(c, rel[1..], trailing)
  }

  /**
   * The file system: the SecLists root, an absolute normal path given by its
   * names, holding `entries`; `elsewhere` is what `stat` answers for a path
   * outside that tree, given the names it reaches and whether it ends in '/'.
   */
  datatype Volume = Volume(baseNames: seq<string>, rootSize: nat, entries: seq<Entry>,
                           elsewhere: (seq<string>, bool) -> Stat)

  /** The root directory as an entry. */
  function Root(fs: Volume): Entry
  {
    Dir(if |fs.baseNames| == 0 then "" else fs.baseNames[|fs.baseNames| - 1], fs.rootSize, fs.entries)
  }

  /** The root's path, '/' followed by its names. */
  function BasePath(fs: Volume): string
  {
    "/" + Join(fs.baseNames, "/")
  }

  /** The names an absolute path leads to. */
  function NamesOf(path: string): seq<string>
  {
    PosixPath.Fold([], Split(path, '/'), false)
  }

  /** Whether a path other than "/" ends in '/'. */
  predicate Trailing(path: string)
  {
    |path| > 1 && path[|path| - 1] == '/'
  }

  /**
   * `stat(path)` for an absolute path: below the root it walks the tree from
   * the root; anywhere else the rest of the file system answers.
   */
  function StatPath(fs: Volume, path: string): (r: Stat)
    ensures Sanitize.Within(NamesOf(path), fs.baseNames) ==>
      r == Walk(Root(fs), NamesOf(path)[|fs.baseNames|..], Trailing(path))
    ensures !Sanitize.Within(NamesOf(path), fs.baseNames) ==> r == fs.elsewhere(NamesOf(path), Trailing(path))
  {
    var names := NamesOf(path);
    if !Sanitize.Within(names, fs.baseNames) then fs.elsewhere(names, Trailing(path))
    else Walk(Root(fs), names[|fs.baseNames|..], Trailing(path))
  }

  /** A join of names ends with the last name's last character. */
  lemma {:induction false} JoinLastChar(names: seq<string>)
    requires |names| >= 1 && PosixPath.Names(names)
    ensures var j := Join(names, "/"); |j| >= 1 && j[|j| - 1] != '/'
    decreases |names|
  {
    var last := names[|names| - 1];
    assert !HasChar(last, '/');
    if |names| > 1 {
      assert PosixPath.Names(names[1..]) by {
        forall i | 0 <= i < |names[1..]| ensures PosixPath.Name(names[1..][i]) { assert names[1..][i] == names[i + 1]; }
      }
      JoinLastChar(names[1..]);
    }
  }

  /** `stat` at the root itself finds the root. */
  lemma StatBase(fs: Volume)
    requires PosixPath.Names(fs.baseNames)
    ensures StatPath(fs, BasePath(fs)) == Present(Root(fs))
  {
    PosixPath.AbsolutePieces(fs.baseNames);
    assert NamesOf(BasePath(fs))[|fs.baseNames|..] == [];
    if |fs.baseNames| > 0 {
      JoinLastChar(fs.baseNames);
    }
  }

  /** Node's message for a failed `stat` or `scandir`. */
  function FsError(s: Stat, call: string, path: string): string
  {
    (if s.NotADirectory? then "ENOTDIR: not a directory, " else "ENOENT: no such file or directory, ")
    + call + " '" + path + "'"
  }

  // ---------------------------------------------------------------- the search

  /** The case-insensitive substring test on a file name. */
  predicate NameMatches(name: string, pattern: string)
  {
    Contains(ToLower(name), ToLower(pattern))
  }

  /**
   * The relative names of every matching file under `es`, in the order the
   * search visits them, each prefixed by `at`: entries in `readdir` order,
   * directories entered depth first unless skipped.
   */
  function Found(es: seq<Entry>, at: seq<string>, pattern: string): (r: seq<seq<string>>)
    decreases es
  {
    if |es| == 0 then []
    else Found(es[..|es| - 1], at, pattern) + FoundIn(es[|es| - 1], at, pattern)
  }

  /** What the search finds at one entry. */
  function FoundIn(e: Entry, at: seq<string>, pattern: string): (r: seq<seq<string>>)
    decreases e
  {
    match e
    case Dir(name, _, children) => if Skipped(name) then [] else Found(children, at + [name], pattern)
    case File(name, _, _) => if NameMatches(name, pattern) then [at + [name]] else []
  }

  /** `names` leads from one of `es` through directories the search enters to a file. */
  predicate FileAt(es: seq<Entry>, names: seq<string>)
    decreases es
  {
    exists i :: 0 <= i < |es| && FileBelow(es[i], names)
  }

  /** `names` leads from `e` itself: `e` is the named file, or a directory the search enters holding the rest. */
  predicate FileBelow(e: Entry, names: seq<string>)
    decreases e
  {
    |names| >= 1 && e.name == names[0] &&
    if |names| == 1 then e.File?
    else e.Dir? && !Skipped(e.name) && FileAt(e.children, names[1..])
  }

  /** The paths a search prints: relative names joined with '/'. */
  function Paths(found: seq<seq<string>>): (r: seq<string>)
    ensures |r| == |found|
    ensures forall i :: 0 <= i < |found| ==> r[i] == Join(found[i], "/")
  {
    seq(|found|, i requires 0 <= i < |found| => Join(found[i], "/"))
  }

  lemma PathsAppend(a: seq<seq<string>>, b: seq<seq<string>>)
    ensures Paths(a + b) == Paths(a) + Paths(b)
  {
  }

  /** One more entry adds the paths found at that entry. */
  lemma FoundStep(entries: seq<Entry>, i: nat, at: seq<string>, pattern: string)
    requires i < |entries|
    ensures Paths(Found(entries[..i + 1], at, pattern)) == Paths(Found(entries[..i], at, pattern)) + Paths(FoundIn(entries[i], at, pattern))
  {
    assert entries[..i + 1][..i] == entries[..i];
    PathsAppend(Found(entries[..i], at, pattern), FoundIn(entries[i], at, pattern));
  }

  /** Searching a list of entries is searching its two halves one after the other. */
  lemma {:induction false} FoundAppend(a: seq<Entry>, b: seq<Entry>, at: seq<string>, pattern: string)
    ensures Found(a + b, at, pattern) == Found(a, at, pattern) + Found(b, at, pattern)
    decreases |b|
  {
    if |b| == 0 {
      assert a + b == a;
    } else {
      var ab := a + b;
      assert ab[..|ab| - 1] == a + b[..|b| - 1];
      assert ab[|ab| - 1] == b[|b| - 1];
      FoundAppend(a, b[..|b| - 1], at, pattern);
    }
  }

  /** A search result: `at` followed by the names of a matching file reachable from `es`. */
  predicate Reached(es: seq<Entry>, at: seq<string>, q: seq<string>, pattern: string)
  {
    |q| > |at| && q[..|at|] == at && FileAt(es, q[|at|..]) && NameMatches(q[|q| - 1], pattern)
  }

  /** Every result is `at` followed by the names of a matching file reachable without entering a skipped directory. */
  lemma {:induction false} FoundSound(es: seq<Entry>, at: seq<string>, pattern: string)
    ensures forall q :: q in Found(es, at, pattern) ==> Reached(es, at, q, pattern)
    decreases es
  {
    if |es| > 0 {
      var n := |es| - 1;
      var init := es[..n];
      FoundSound(init, at, pattern);
      FoundInSound(es[n], at, pattern);
      forall q | q in Found(es, at, pattern)
        ensures Reached(es, at, q, pattern)
      {
        if q in Found(init, at, pattern) {
          var i :| 0 <= i < |init| && FileBelow(init[i], q[|at|..]);
          assert es[i] == init[i];
        } else {
          assert FileBelow(es[n], q[|at|..]);
        }
      }
    }
  }

  lemma {:induction false} FoundInSound(e: Entry, at: seq<string>, pattern: string)
    ensures forall q :: q in FoundIn(e, at, pattern) ==>
      |q| > |at| && q[..|at|] == at && FileBelow(e, q[|at|..]) && NameMatches(q[|q| - 1], pattern)
    decreases e
  {
    if e.Dir? && !Skipped(e.name) {
      var at' := at + [e.name];
      FoundSound(e.children, at', pattern);
      forall q | q in Found(e.children, at', pattern)
        ensures |q| > |at| && q[..|at|] == at && FileBelow(e, q[|at|..])
      {
        assert q[..|at|] == q[..|at'|][..|at|];
        assert q[|at|..] == [e.name] + q[|at'|..];
        assert q[|at|..][1..] == q[|at'|..];
      }
    } else if e.File? && NameMatches(e.name, pattern) {
      var q := at + [e.name];
      assert q[|at|..] == [e.name];
      assert q[..|at|] == at;
    }
  }

  /** Every matching file reachable without entering a skipped directory is found. */
  lemma {:induction false} FoundComplete(es: seq<Entry>, at: seq<string>, pattern: string, names: seq<string>)
    requires |names| >= 1 && FileAt(es, names) && NameMatches(names[|names| - 1], pattern)
    ensures at + names in Found(es, at, pattern)
    decreases es
  {
    var n := |es| - 1;
    var i :| 0 <= i < |es| && FileBelow(es[i], names);
    var init := es[..n];
    if i < n {
      assert init[i] == es[i];
      FoundComplete(init, at, pattern, names);
    } else {
      FoundInComplete(es[n], at, pattern, names);
    }
  }

  lemma {:induction false} FoundInComplete(e: Entry, at: seq<string>, pattern: string, names: seq<string>)
    requires FileBelow(e, names) && NameMatches(names[|names| - 1], pattern)
    ensures at + names in FoundIn(e, at, pattern)
    decreases e
  {
    if |names| == 1 {
      assert names == [e.name];
    } else {
      FoundComplete(e.children, at + [e.name], pattern, names[1..]);
      assert at + [e.name] + names[1..] == at + names;
    }
  }

  /** At most `max` elements: the start of `xs`. */
  function Cap<T>(xs: seq<T>, max: nat): (r: seq<T>)
    ensures |r| <= max && |r| <= |xs|
    ensures |xs| <= max ==> r == xs
    ensures |xs| > max ==> |r| == max
    ensures r == xs[..|r|]
  {
    if |xs| <= max then xs else xs[..max]
  }

  lemma CapCap<T>(xs: seq<T>, ys: seq<T>, max: nat)
    ensures Cap(Cap(xs, max) + ys, max) == Cap(xs + ys, max)
  {
    if |xs| > max {
      assert (xs + ys)[..max] == xs[..max];
      assert (xs[..max] + ys)[..max] == xs[..max];
    }
  }

  // ---------------------------------------------------------------- sorting

  /** Elements in non-decreasing order under `le`, for every pair. */
  predicate Sorted<T>(xs: seq<T>, le: (T, T) -> bool)
  {
    forall i, j :: 0 <= i < j < |xs| ==> le(xs[i], xs[j])
  }

  ghost predicate Total<T(!new)>(le: (T, T) -> bool)
  {
    forall a, b :: le(a, b) || le(b, a)
  }

  ghost predicate Transitive<T(!new)>(le: (T, T) -> bool)
  {
    forall a, b, c :: le(a, b) && le(b, c) ==> le(a, c)
  }

  /** `x` placed after every leading element not above it. */
  function Insert<T>(x: T, ys: seq<T>, le: (T, T) -> bool): (r: seq<T>)
    ensures multiset(r) == multiset(ys) + multiset{x}
    decreases |ys|
  {
    if |ys| == 0 then [x]
    else if le(ys[0], x) then (assert ys == [ys[0]] + ys[1..]; [ys[0]] + Insert(x, ys[1..], le))
    else (assert ys == [ys[0]] + ys[1..]; [x] + ys)
  }

  /** A stable sort (as `Array.prototype.sort` is): each element goes after the earlier ones it does not precede. */
  function Sort<T>(xs: seq<T>, le: (T, T) -> bool): (r: seq<T>)
    ensures multiset(r) == multiset(xs)
    decreases |xs|
  {
    if |xs| == 0 then []
    else
      assert xs == xs[..|xs| - 1] + [xs[|xs| - 1]];
      Insert(xs[|xs| - 1], Sort(xs[..|xs| - 1], le), le)
  }

  lemma {:induction false} InsertSorted<T(!new)>(x: T, ys: seq<T>, le: (T, T) -> bool)
    requires Total(le) && Transitive(le) && Sorted(ys, le)
    ensures Sorted(Insert(x, ys, le), le)
    decreases |ys|
  {
    if |ys| > 0 && le(ys[0], x) {
      var rest := Insert(x, ys[1..], le);
      InsertSorted(x, ys[1..], le);
      assert forall k :: 0 <= k < |rest| ==> le(ys[0], rest[k]) by {
        forall k | 0 <= k < |rest| ensures le(ys[0], rest[k]) {
          assert rest[k] in multiset(rest);
          assert rest[k] in multiset(ys[1..]) + multiset{x};
          if rest[k] != x {
            assert rest[k] in ys[1..];
            var m :| 0 <= m < |ys[1..]| && ys[1..][m] == rest[k];
            assert ys[m + 1] == rest[k];
          }
        }
      }
      var r := [ys[0]] + rest;
      forall i, j | 0 <= i < j < |r| ensures le(r[i], r[j]) {
        if i > 0 {
          assert r[i] == rest[i - 1] && r[j] == rest[j - 1];
        } else {
          assert r[j] == rest[j - 1];
        }
      }
    } else if |ys| > 0 {
      var r := [x] + ys;
      forall i, j | 0 <= i < j < |r| ensures le(r[i], r[j]) {
        if i > 0 {
          assert r[i] == ys[i - 1] && r[j] == ys[j - 1];
        } else {
          assert r[j] == ys[j - 1];
          assert le(x, ys[0]);
          if j > 1 {
            assert le(ys[0], ys[j - 1]);
          }
        }
      }
    }
  }

  /** Under a total, transitive `le`, the sort's output is sorted (and, by `Sort`'s contract, a permutation). */
  lemma {:induction false} SortSorted<T(!new)>(xs: seq<T>, le: (T, T) -> bool)
    requires Total(le) && Transitive(le)
    ensures Sorted(Sort(xs, le), le)
    decreases |xs|
  {
    if |xs| > 0 {
      SortSorted(xs[..|xs| - 1], le);
      InsertSorted(xs[|xs| - 1], Sort(xs[..|xs| - 1], le), le);
    }
  }

  /** The default `sort` order on strings: lexicographic by character. */
  predicate CodeUnitLe(a: string, b: string)
    decreases |a|
  {
    |a| == 0 || (|b| > 0 && (a[0] < b[0] || (a[0] == b[0] && CodeUnitLe(a[1..], b[1..]))))
  }

  lemma {:induction false} CodeUnitLeTotal(a: string, b: string)
    ensures CodeUnitLe(a, b) || CodeUnitLe(b, a)
    decreases |a|
  {
    if |a| > 0 && |b| > 0 && a[0] == b[0] {
      CodeUnitLeTotal(a[1..], b[1..]);
    }
  }

  lemma {:induction false} CodeUnitLeTransitive(a: string, b: string, c: string)
    requires CodeUnitLe(a, b) && CodeUnitLe(b, c)
    ensures CodeUnitLe(a, c)
    decreases |a|
  {
    if |a| > 0 && a[0] == b[0] && b[0] == c[0] {
      CodeUnitLeTransitive(a[1..], b[1..], c[1..]);
    }
  }

  lemma {:induction false} CodeUnitLeAntisymmetric(a: string, b: string)
    requires CodeUnitLe(a, b) && CodeUnitLe(b, a)
    ensures a == b
    decreases |a|
  {
    if |a| > 0 {
      CodeUnitLeAntisymmetric(a[1..], b[1..]);
      assert a == [a[0]] + a[1..] && b == [b[0]] + b[1..];
    }
  }

  function StringOrder(): (le: (string, string) -> bool)
    ensures Total(le) && Transitive(le)
  {
    var le := (a: string, b: string) => CodeUnitLe(a, b);
    assert Total(le) by {
      forall a: string, b: string ensures le(a, b) || le(b, a) { CodeUnitLeTotal(a, b); }
    }
    assert Transitive(le) by {
      forall a: string, b: string, c: string | le(a, b) && le(b, c) ensures le(a, c) {
        CodeUnitLeTransitive(a, b, c);
      }
    }
    le
  }

  /** Files ordered by name under `before`, the collation's "not after" (`localeCompare(a, b) <= 0`). */
  function ByName(before: (string, string) -> bool): (le: (Entry, Entry) -> bool)
    ensures forall a, b :: le(a, b) == before(a.name, b.name)
  {
    (a: Entry, b: Entry) => before(a.name, b.name)
  }

  lemma ByNameOrder(before: (string, string) -> bool)
    requires Total(before) && Transitive(before)
    ensures Total(ByName(before)) && Transitive(ByName(before))
  {
    var le := ByName(before);
    forall a: Entry, b: Entry ensures le(a, b) || le(b, a) {
      assert before(a.name, b.name) || before(b.name, a.name);
    }
    forall a: Entry, b: Entry, c: Entry | le(a, b) && le(b, c) ensures le(a, c) {
      assert before(a.name, b.name) && before(b.name, c.name);
    }
  }

  // ---------------------------------------------------------------- listing one directory

  /** The visible sub-directories of `es`, in `readdir` order, each followed by '/'. */
  function DirNames(es: seq<Entry>): (r: seq<string>)
    decreases |es|
  {
    if |es| == 0 then []
    else
      var e := es[|es| - 1];
      DirNames(es[..|es| - 1]) + (if !Hidden(e.name) && e.Dir? then [e.name + "/"] else [])
  }

  /** The visible files of `es`, in `readdir` order. */
  function FileEntries(es: seq<Entry>): (r: seq<Entry>)
    decreases |es|
  {
    if |es| == 0 then []
    else
      var e := es[|es| - 1];
      FileEntries(es[..|es| - 1]) + (if !Hidden(e.name) && e.File? then [e] else [])
  }

  lemma {:induction false} DirNamesMembers(es: seq<Entry>)
    ensures forall d :: d in DirNames(es) <==> exists e :: e in es && e.Dir? && !Hidden(e.name) && d == e.name + "/"
    decreases |es|
  {
    if |es| > 0 {
      var init := es[..|es| - 1];
      DirNamesMembers(init);
      assert es == init + [es[|es| - 1]];
    }
  }

  lemma {:induction false} FileEntriesMembers(es: seq<Entry>)
    ensures forall f :: f in FileEntries(es) <==> f in es && f.File? && !Hidden(f.name)
    decreases |es|
  {
    if |es| > 0 {
      var init := es[..|es| - 1];
      FileEntriesMembers(init);
      assert es == init + [es[|es| - 1]];
    }
  }

  /**
   * The listing loop: hidden entries are passed over, directories are
   * collected with a '/' appended and files as they are, then both groups
   * are sorted, directories by the default string order and files by name
   * under `before`.
   */
  method Collect(entries: seq<Entry>, before: (string, string) -> bool)
    returns (dirs: seq<string>, files: seq<Entry>)
    ensures dirs == Sort(DirNames(entries), StringOrder())
    ensures files == Sort(FileEntries(entries), ByName(before))
  {
    dirs, files := [], [];
    for i := 0 to |entries|
      invariant dirs == DirNames(entries[..i])
      invariant files == FileEntries(entries[..i])
    {
      var entry := entries[i];
      assert entries[..i + 1][..i] == entries[..i];
      if Hidden(entry.name) {
        continue;
      }
      if entry.Dir? {
        dirs := dirs + [entry.name + "/"];
      } else {
        files := files + [entry];
      }
    }
    assert entries[..|entries|] == entries;
    dirs := Sort(dirs, StringOrder());
    files := Sort(files, ByName(before));
  }

  /** The sorted groups hold exactly the visible entries, in order. */
  lemma CollectedGroups(entries: seq<Entry>, before: (string, string) -> bool)
    requires Total(before) && Transitive(before)
    ensures var dirs := Sort(DirNames(entries), StringOrder());
      Sorted(dirs, StringOrder())
      && forall d :: d in dirs <==> exists e :: e in entries && e.Dir? && !Hidden(e.name) && d == e.name + "/"
    ensures var files := Sort(FileEntries(entries), ByName(before));
      Sorted(files, ByName(before))
      && forall f :: f in files <==> f in entries && f.File? && !Hidden(f.name)
  {
    SortSorted(DirNames(entries), StringOrder());
    ByNameOrder(before);
    SortSorted(FileEntries(entries), ByName(before));
    DirNamesMembers(entries);
    FileEntriesMembers(entries);
    var dirs := Sort(DirNames(entries), StringOrder());
    var files := Sort(FileEntries(entries), ByName(before));
    forall d ensures d in dirs <==> d in DirNames(entries) {
      assert d in dirs <==> d in multiset(dirs);
      assert d in DirNames(entries) <==> d in multiset(DirNames(entries));
    }
    forall f ensures f in files <==> f in FileEntries(entries) {
      assert f in files <==> f in multiset(files);
      assert f in FileEntries(entries) <==> f in multiset(FileEntries(entries));
    }
  }

  /**
   * The listing text both front ends print: the header, the directory lines
   * under "Directories:", the file lines under "Files:", and "(empty)" when
   * there are neither.
   */
  function ListingText(header: string, dirLines: seq<string>, fileLines: seq<string>): (r: string)
    ensures StartsWith(r, header)
  {
    header
    + (if |dirLines| > 0 then "Directories:\n" + Join(dirLines, "\n") + "\n\n" else "")
    + (if |fileLines| > 0 then "Files:\n" + Join(fileLines, "\n") else "")
    + (if |dirLines| == 0 && |fileLines| == 0 then "(empty)" else "")
  }

  /** The listing is the header and "(empty)" exactly when there is nothing to show. */
  lemma ListingEmpty(header: string, dirLines: seq<string>, fileLines: seq<string>)
    ensures ListingText(header, dirLines, fileLines) == header + "(empty)" <==> |dirLines| == 0 && |fileLines| == 0
  {
    var r := ListingText(header, dirLines, fileLines);
    if |dirLines| > 0 {
      assert r[|header|] == 'D';
      assert (header + "(empty)")[|header|] == '(';
    } else if |fileLines| > 0 {
      assert r[|header|] == 'F';
      assert (header + "(empty)")[|header|] == '(';
    }
  }
}
