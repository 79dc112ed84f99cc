/**
 * Node's POSIX `path.normalize`, `path.join` and `path.resolve`, as used by the
 * path-containment checks. A path is split on '/', and the pieces are folded
 * onto a stack: empty pieces and "." are skipped, ".." pops a name (or is kept,
 * for relative paths, when there is nothing left to pop), and any other piece
 * is pushed.
 */
module PosixPath {
  import opened Text

  predicate IsAbsolute(p: string)
  {
    |p| > 0 && p[0] == '/'
  }

  /** One step of the fold. `aboveRoot` is true for relative paths, where ".." may survive. */
  function Step(stack: seq<string>, piece: string, aboveRoot: bool): seq<string>
  {
    if piece == "" || piece == "." then stack
    else if piece == ".." then
      if |stack| > 0 && stack[|stack| - 1] != ".." then stack[..|stack| - 1]
      else if aboveRoot then stack + [".."]
      else stack
    else stack + [piece]
  }

  function Fold(stack: seq<string>, pieces: seq<string>, aboveRoot: bool): seq<string>
    decreases |pieces|
  {
    if |pieces| == 0 then stack else Fold(Step(stack, pieces[0], aboveRoot), pieces[1..], aboveRoot)
  }

  /** A path component: non-empty and free of '/'. */
  predicate Component(s: string)
  {
    s != "" && !HasChar(s, '/')
  }

  predicate Components(xs: seq<string>)
  {
    forall i :: 0 <= i < |xs| ==> Component(xs[i])
  }

  /** A component that names a directory entry: neither "." nor "..". */
  predicate Name(s: string)
  {
    Component(s) && s != "." && s != ".."
  }

  /** Components of a normalized absolute path: names only. */
  predicate Names(xs: seq<string>)
  {
    forall i :: 0 <= i < |xs| ==> Name(xs[i])
  }

  /** `path.normalize(p)`: keeps a leading '/' and a trailing '/', and gives "." for nothing. */
  function Normalize(p: string): string
  {
    if |p| == 0 then "."
    else Render(p[0] == '/', p[|p| - 1] == '/', Join(Fold([], Split(p, '/'), p[0] != '/'), "/"))
  }

  /** How `path.normalize` writes out the folded names. */
  function Render(absolute: bool, trailing: bool, body: string): string
  {
    if body == "" then (if absolute then "/" else if trailing then "./" else ".")
    else (if absolute then "/" else "") + body + (if trailing then "/" else "")
  }

  function NonEmptyParts(parts: seq<string>): (r: seq<string>)
    ensures forall i :: 0 <= i < |r| ==> r[i] != ""
  {
    if |parts| == 0 then []
    else if parts[0] == "" then NonEmptyParts(parts[1..])
    else [parts[0]] + NonEmptyParts(parts[1..])
  }

  /** `path.join(...parts)`: the non-empty parts joined with '/', then normalized. */
  function JoinPaths(parts: seq<string>): string
  {
    var kept := NonEmptyParts(parts);
    if |kept| == 0 then "." else Normalize(Join(kept, "/"))
  }

  /**
   * The string `path.resolve(...args)` builds before normalizing: walking from
   * the last argument back, each non-empty one is put in front followed by
   * '/', until an absolute one is reached; the working directory comes last.
   */
  function Gather(args: seq<string>, cwd: string): string
    decreases |args|
  {
    if |args| == 0 then (if cwd == "" then "" else cwd + "/")
    else
      var p := args[|args| - 1];
      if p == "" then Gather(args[..|args| - 1], cwd)
      else if IsAbsolute(p) then p + "/"
      else Gather(args[..|args| - 1], cwd) + p + "/"
  }

  /** The components of `path.resolve(...args)` run from the working directory `cwd`. */
  function ResolvedComponents(cwd: string, args: seq<string>): seq<string>
  {
    var g := Gather(args, cwd);
    Fold([], Split(g, '/'), !IsAbsolute(g))
  }

  /** `path.resolve(...args)` run from the working directory `cwd`. */
  function Resolve(cwd: string, args: seq<string>): string
  {
    var g := Gather(args, cwd);
    var body := Join(ResolvedComponents(cwd, args), "/");
    if IsAbsolute(g) then "/" + body else if body == "" then "." else body
  }

  // ---------------------------------------------------------------- lemmas

  lemma {:induction false} FoldAppend(stack: seq<string>, a: seq<string>, b: seq<string>, aboveRoot: bool)
    ensures Fold(stack, a + b, aboveRoot) == Fold(Fold(stack, a, aboveRoot), b, aboveRoot)
    decreases |a|
  {
    if |a| > 0 {
      assert (a + b)[0] == a[0];
      assert (a + b)[1..] == a[1..] + b;
      FoldAppend(Step(stack, a[0], aboveRoot), a[1..], b, aboveRoot);
    } else {
      assert a + b == b;
    }
  }

  /** Names are pushed as they are. */
  lemma {:induction false} FoldNames(stack: seq<string>, names: seq<string>, aboveRoot: bool)
    requires Names(names)
    ensures Fold(stack, names, aboveRoot) == stack + names
    decreases |names|
  {
    if |names| > 0 {
      FoldNames(stack + [names[0]], names[1..], aboveRoot);
      assert stack + [names[0]] + names[1..] == stack + names;
    }
  }

  /** Folding '/'-free pieces onto components keeps components; without `aboveRoot`, names. */
  lemma {:induction false} FoldShape(stack: seq<string>, pieces: seq<string>, aboveRoot: bool)
    requires FreeOf(pieces, '/')
    ensures Components(stack) ==> Components(Fold(stack, pieces, aboveRoot))
    ensures Names(stack) && !aboveRoot ==> Names(Fold(stack, pieces, aboveRoot))
    decreases |pieces|
  {
    if |pieces| > 0 {
      assert !HasChar(pieces[0], '/');
      assert FreeOf(pieces[1..], '/') by {
        forall i | 0 <= i < |pieces[1..]| ensures !HasChar(pieces[1..][i], '/') {
          assert pieces[1..][i] == pieces[i + 1];
        }
      }
      FoldShape(Step(stack, pieces[0], aboveRoot), pieces[1..], aboveRoot);
    }
  }

  lemma {:induction false} GatherAbsolute(args: seq<string>, cwd: string)
    requires IsAbsolute(cwd)
    ensures IsAbsolute(Gather(args, cwd))
    decreases |args|
  {
    if |args| > 0 {
      GatherAbsolute(args[..|args| - 1], cwd);
    }
  }

  /** From an absolute working directory, `resolve` gives '/' followed by names joined with '/'. */
  lemma ResolveShape(cwd: string, args: seq<string>)
    requires IsAbsolute(cwd)
    ensures Names(ResolvedComponents(cwd, args))
    ensures Resolve(cwd, args) == "/" + Join(ResolvedComponents(cwd, args), "/")
  {
    GatherAbsolute(args, cwd);
    var g := Gather(args, cwd);
    SplitPiecesFreeOfSep(g, '/');
    FoldShape([], Split(g, '/'), false);
  }

  /** A join of components never starts with '/'. */
  lemma JoinComponentsHead(xs: seq<string>)
    requires Components(xs) && |xs| >= 1
    ensures |Join(xs, "/")| >= 1 && Join(xs, "/")[0] == xs[0][0] && xs[0][0] != '/'
  {
    assert xs[0][0] != '/' by { assert !HasChar(xs[0], '/'); }
    if |xs| > 1 {
      assert Join(xs, "/") == xs[0] + "/" + Join(xs[1..], "/");
    }
  }

  /** Equal joins of components come from equal component lists. */
  lemma JoinComponentsInjective(xs: seq<string>, ys: seq<string>)
    requires Components(xs) && Components(ys)
    ensures Join(xs, "/") == Join(ys, "/") <==> xs == ys
  {
    if Join(xs, "/") == Join(ys, "/") {
      if |xs| == 0 || |ys| == 0 {
        if |xs| > 0 { JoinComponentsHead(xs); }
        if |ys| > 0 { JoinComponentsHead(ys); }
      } else {
        assert FreeOf(xs, '/') && FreeOf(ys, '/');
        SplitJoin(xs, '/');
        SplitJoin(ys, '/');
      }
    }
  }

  /**
   * The join of `rs` starts with the join of `bs` followed by '/' exactly when
   * `bs` is a proper prefix of `rs`, component by component.
   */
  lemma {:induction false} JoinPrefix(bs: seq<string>, rs: seq<string>)
    requires Components(bs) && Components(rs) && |bs| >= 1
    ensures StartsWith(Join(rs, "/"), Join(bs, "/") + "/") <==> |bs| < |rs| && rs[..|bs|] == bs
    decreases |bs|
  {
    if |bs| < |rs| && rs[..|bs|] == bs {
      JoinAppend(bs, rs[|bs|..], "/");
      assert rs == bs + rs[|bs|..];
    }
    if StartsWith(Join(rs, "/"), Join(bs, "/") + "/") {
      PrefixHead(bs, rs);
    }
  }

  lemma {:induction false} PrefixHead(bs: seq<string>, rs: seq<string>)
    requires Components(bs) && Components(rs) && |bs| >= 1
    requires StartsWith(Join(rs, "/"), Join(bs, "/") + "/")
    ensures |bs| < |rs| && rs[..|bs|] == bs
    decreases |bs|
  {
    var jr := Join(rs, "/");
    var b := bs[0];
    var bTail := Join(bs[1..], "/");
    var pat := Join(bs, "/") + "/";
    var r := rs[0];
    assert !HasChar(r, '/') && !HasChar(b, '/');
    assert pat == b + "/" + (if |bs| == 1 then "" else bTail + "/");
    assert forall i :: 0 <= i < |b| ==> pat[i] == b[i] && pat[i] != '/';
    assert pat[|b|] == '/';
    assert forall i :: 0 <= i <= |b| ==> jr[i] == pat[i];
    // the first '/' of `jr` ends `r`, the first '/' of `pat` ends `b`
    assert forall i :: 0 <= i < |r| ==> jr[i] == r[i] && jr[i] != '/';
    assert |rs| == 1 ==> jr == r;
    assert |rs| >= 2 ==> jr == r + "/" + Join(rs[1..], "/");
    assert |b| >= |r|;
    assert |rs| >= 2;
    assert jr[|r|] == '/';
    assert |r| == |b|;
    assert r == b by {
      forall i | 0 <= i < |r| ensures r[i] == b[i] {
        assert jr[i] == r[i] && pat[i] == b[i];
      }
    }
    if |bs| > 1 {
      var rest := Join(rs[1..], "/");
      assert Components(bs[1..]) && Components(rs[1..]) by {
        forall i | 0 <= i < |bs[1..]| ensures Component(bs[1..][i]) { assert bs[1..][i] == bs[i + 1]; }
        forall i | 0 <= i < |rs[1..]| ensures Component(rs[1..][i]) { assert rs[1..][i] == rs[i + 1]; }
      }
      assert StartsWith(rest, bTail + "/") by {
        var k := |b| + 1;
        assert jr[k..] == rest;
        assert pat[k..] == bTail + "/";
        assert jr[..|pat|] == pat;
        assert rest[..|bTail + "/"|] == jr[k..|pat|] == pat[k..];
      }
      PrefixHead(bs[1..], rs[1..]);
      assert rs[..|bs|] == [rs[0]] + rs[1..][..|bs| - 1];
      assert bs == [bs[0]] + bs[1..];
    } else {
      assert rs[..1] == [r];
    }
  }

  // ---------------------------------------------------------------- meaning of resolve

  /** Components of a relative normal form: names and "..". */
  predicate RelativeComponents(xs: seq<string>)
  {
    forall i :: 0 <= i < |xs| ==> Component(xs[i]) && xs[i] != "."
  }

  /**
   * The directory, as names from the root, that `path.resolve(dir, p)` reaches
   * when `dir` has the names `dir`: an absolute `p` starts again from the root.
   */
  function Locate(dir: seq<string>, p: string): seq<string>
  {
    if IsAbsolute(p) then Fold([], Split(p, '/'), false) else Fold(dir, Split(p, '/'), false)
  }

  lemma {:induction false} FoldRelativeShape(stack: seq<string>, pieces: seq<string>)
    requires FreeOf(pieces, '/') && RelativeComponents(stack)
    ensures RelativeComponents(Fold(stack, pieces, true))
    decreases |pieces|
  {
    if |pieces| > 0 {
      assert !HasChar(pieces[0], '/');
      assert FreeOf(pieces[1..], '/') by {
        forall i | 0 <= i < |pieces[1..]| ensures !HasChar(pieces[1..][i], '/') {
          assert pieces[1..][i] == pieces[i + 1];
        }
      }
      FoldRelativeShape(Step(stack, pieces[0], true), pieces[1..]);
    }
  }

  /** Folding `Step(rel, p)` onto names is one more step after folding `rel`. */
  lemma StepThroughRelative(stack: seq<string>, rel: seq<string>, p: string)
    requires Names(stack) && RelativeComponents(rel)
    ensures Fold(stack, Step(rel, p, true), false) == Step(Fold(stack, rel, false), p, false)
  {
    if p == ".." && |rel| > 0 && rel[|rel| - 1] != ".." {
      var front := rel[..|rel| - 1];
      var last := rel[|rel| - 1];
      assert rel == front + [last];
      FoldAppend(stack, front, [last], false);
      FoldNames(Fold(stack, front, false), [last], false);
    } else if p != "" && p != "." {
      FoldAppend(stack, rel, [Step(rel, p, true)[|rel|]], false);
      assert Step(rel, p, true) == rel + [Step(rel, p, true)[|rel|]];
    }
  }

  /** Normalizing a relative path first, then resolving, lands on the same names. */
  lemma {:induction false} FoldRelativeThenNames(stack: seq<string>, pieces: seq<string>)
    requires Names(stack) && FreeOf(pieces, '/')
    ensures Fold(stack, Fold([], pieces, true), false) == Fold(stack, pieces, false)
    decreases |pieces|
  {
    if |pieces| > 0 {
      var front := pieces[..|pieces| - 1];
      var p := pieces[|pieces| - 1];
      assert pieces == front + [p];
      assert FreeOf(front, '/') by {
        forall i | 0 <= i < |front| ensures !HasChar(front[i], '/') { assert front[i] == pieces[i]; }
      }
      FoldRelativeThenNames(stack, front);
      var rel := Fold([], front, true);
      FoldRelativeShape([], front);
      FoldAppend([], front, [p], true);
      FoldAppend(stack, front, [p], false);
      StepThroughRelative(stack, rel, p);
    }
  }

  /** The pieces of a normalized path, up to skipped pieces. */
  lemma NormalizePieces(u: string, stack: seq<string>)
    requires Names(stack)
    requires IsAbsolute(u) ==> stack == []
    ensures Fold(stack, Split(Normalize(u), '/'), false) == Fold(stack, Split(u, '/'), false)
  {
    SplitPiecesFreeOfSep(u, '/');
    if |u| == 0 {
      SplitOne('.', '/');
    } else {
      var absolute := u[0] == '/';
      var r := Fold([], Split(u, '/'), !absolute);
      FoldShape([], Split(u, '/'), !absolute);
      if !absolute { FoldRelativeShape([], Split(u, '/')); }
      if Join(r, "/") == "" {
        assert r == [] by { if |r| > 0 { JoinComponentsHead(r); } }
        RenderNothing(absolute, u[|u| - 1] == '/', stack);
      } else {
        RenderSomething(absolute, u[|u| - 1] == '/', r);
        FoldAppend(stack, (if absolute then [""] else []) + r, if u[|u| - 1] == '/' then [""] else [], false);
        FoldAppend(stack, if absolute then [""] else [], r, false);
      }
      if absolute {
        FoldNames([], r, false);
      } else {
        FoldRelativeThenNames(stack, Split(u, '/'));
      }
    }
  }

  /** Pieces that are all empty or "." leave the stack as it is. */
  lemma {:induction false} FoldSkipped(stack: seq<string>, pieces: seq<string>)
    requires forall i :: 0 <= i < |pieces| ==> pieces[i] == "" || pieces[i] == "."
    ensures Fold(stack, pieces, false) == stack
    decreases |pieces|
  {
    if |pieces| > 0 {
      FoldSkipped(stack, pieces[1..]);
    }
  }

  /** When nothing is left after folding, `normalize` gives "/", "./" or ".", all skipped pieces. */
  lemma RenderNothing(absolute: bool, trailing: bool, stack: seq<string>)
    ensures Fold(stack, Split(Render(absolute, trailing, ""), '/'), false) == stack
  {
    var pieces := Split(Render(absolute, trailing, ""), '/');
    if absolute {
      assert Render(absolute, trailing, "") == "" + "/" + "";
      SplitAppend("", "", '/');
      assert pieces == ["", ""];
    } else if trailing {
      assert Render(absolute, trailing, "") == "." + "/" + "";
      SplitAppend(".", "", '/');
      SplitOne('.', '/');
      assert pieces == [".", ""];
    } else {
      SplitOne('.', '/');
      assert pieces == ["."];
    }
    FoldSkipped(stack, pieces);
  }

  /** When names are left, `normalize` gives them joined, with the leading and trailing '/' kept. */
  lemma RenderSomething(absolute: bool, trailing: bool, r: seq<string>)
    requires |r| >= 1 && Components(r)
    ensures Split(Render(absolute, trailing, Join(r, "/")), '/') ==
      (if absolute then [""] else []) + r + (if trailing then [""] else [])
  {
    var body := Join(r, "/");
    JoinComponentsHead(r);
    SplitJoin(r, '/');
    assert Split(body, '/') == r;
    RenderPieces(absolute, trailing, body);
  }

  lemma RenderPieces(absolute: bool, trailing: bool, body: string)
    requires body != ""
    ensures Split(Render(absolute, trailing, body), '/') ==
      (if absolute then [""] else []) + Split(body, '/') + (if trailing then [""] else [])
  {
    var n := Render(absolute, trailing, body);
    if absolute && trailing {
      RenderBoth(body);
    } else if absolute {
      assert n == "" + "/" + body;
      SplitAppend("", body, '/');
      assert Split("", '/') == [""];
      assert Split(n, '/') == [""] + Split(body, '/');
    } else if trailing {
      assert n == body + "/" + "";
      SplitAppend(body, "", '/');
      assert Split("", '/') == [""];
      assert Split(n, '/') == Split(body, '/') + [""];
    } else {
      assert n == body;
      assert [] + Split(body, '/') + [] == Split(body, '/');
    }
  }

  lemma RenderBoth(body: string)
    requires body != ""
    ensures Split(Render(true, true, body), '/') == [""] + Split(body, '/') + [""]
  {
    assert Render(true, true, body) == "" + "/" + (body + "/" + "");
    SplitAppend("", body + "/" + "", '/');
    SplitAppend(body, "", '/');
  }

  /** `path.normalize` keeps a path absolute or relative. */
  lemma NormalizeKeepsAbsolute(p: string)
    ensures Normalize(p) != ""
    ensures IsAbsolute(Normalize(p)) <==> IsAbsolute(p)
  {
    if |p| > 0 && p[0] != '/' {
      var r := Fold([], Split(p, '/'), true);
      SplitPiecesFreeOfSep(p, '/');
      FoldRelativeShape([], Split(p, '/'));
      if |r| > 0 {
        JoinComponentsHead(r);
      }
    }
  }

  /** The pieces of "/" followed by names are one empty piece and the names. */
  lemma AbsolutePieces(names: seq<string>)
    requires Names(names)
    ensures Fold([], Split("/" + Join(names, "/"), '/'), false) == names
  {
    assert "/" + Join(names, "/") == "" + "/" + Join(names, "/");
    SplitAppend("", Join(names, "/"), '/');
    if |names| > 0 {
      SplitJoin(names, '/');
      FoldNames([], names, false);
    } else {
      assert Split("", '/') + Split("", '/') == ["", ""];
      assert Fold([], ["", ""], false) == Fold([], [""], false);
    }
  }

  /** The names of the working directory. */
  function CwdNames(cwd: string): seq<string>
  {
    Fold([], Split(cwd, '/'), false)
  }

  /** `path.resolve(path.normalize(p))` from `cwd` reaches `Locate(CwdNames(cwd), p)`. */
  lemma ResolveNormalized(cwd: string, p: string)
    requires IsAbsolute(cwd)
    ensures ResolvedComponents(cwd, [Normalize(p)]) == Locate(CwdNames(cwd), p)
  {
    var n := Normalize(p);
    var c := CwdNames(cwd);
    SplitPiecesFreeOfSep(cwd, '/');
    FoldShape([], Split(cwd, '/'), false);
    NormalizeKeepsAbsolute(p);
    assert [n][..0] == [];
    if IsAbsolute(n) {
      assert Gather([n], cwd) == n + "/" + "";
      SplitAppend(n, "", '/');
      FoldAppend([], Split(n, '/'), [""], false);
      NormalizePieces(p, []);
    } else {
      assert Gather([n], cwd) == cwd + "/" + (n + "/" + "");
      SplitAppend(cwd, n + "/" + "", '/');
      SplitAppend(n, "", '/');
      FoldAppend([], Split(cwd, '/'), Split(n, '/') + [""], false);
      FoldAppend(c, Split(n, '/'), [""], false);
      NormalizePieces(p, c);
    }
  }

  /** `path.resolve(dir, path.normalize(p))`, for `dir` an absolute normal path, reaches `Locate(names of dir, p)`. */
  lemma ResolveUnder(cwd: string, dirNames: seq<string>, p: string)
    requires IsAbsolute(cwd) && Names(dirNames)
    ensures ResolvedComponents(cwd, ["/" + Join(dirNames, "/"), Normalize(p)]) == Locate(dirNames, p)
  {
    var d := "/" + Join(dirNames, "/");
    var n := Normalize(p);
    NormalizeKeepsAbsolute(p);
    var args := [d, n];
    assert args[..1] == [d] && args[..1][..0] == [];
    if IsAbsolute(n) {
      assert Gather(args, cwd) == n + "/" + "";
      SplitAppend(n, "", '/');
      FoldAppend([], Split(n, '/'), [""], false);
      NormalizePieces(p, []);
    } else {
      assert Gather(args, cwd) == d + "/" + (n + "/" + "");
      SplitAppend(d, n + "/" + "", '/');
      SplitAppend(n, "", '/');
      AbsolutePieces(dirNames);
      FoldAppend([], Split(d, '/'), Split(n, '/') + [""], false);
      FoldAppend(dirNames, Split(n, '/'), [""], false);
      NormalizePieces(p, dirNames);
    }
  }
}
