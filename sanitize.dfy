/**
 * packages/mcp-shared/src/sanitize.ts: ANSI escape removal, output
 * truncation, and the containment check every file-writing tool runs on
 * user-supplied paths.
 */
module Sanitize {
  import opened Wrappers
  import opened Text
  import opened Js
  import opened PosixPath

  // ---------------------------------------------------------------- removeAnsiCodes

  /** ESC or the 8-bit CSI character: what every escape sequence starts with. */
  predicate IsIntroducer(c: char)
  {
    c == '\U{001B}' || c == '\U{009B}'
  }

  /** The class `[[()#;?]` read right after the introducer. */
  predicate IsPrefixChar(c: char)
  {
    c == '[' || c == '(' || c == ')' || c == '#' || c == ';' || c == '?'
  }

  /** The class `[0-9A-ORZcf-nqry=><~]` that ends a sequence. */
  predicate IsFinalChar(c: char)
  {
    IsDigit(c) || ('A' <= c <= 'O') || c == 'R' || c == 'Z' || c == 'c' || ('f' <= c <= 'n')
    || c == 'q' || c == 'r' || c == 'y' || c == '=' || c == '>' || c == '<' || c == '~'
  }

  function PrefixRun(s: string, i: nat): (n: nat)
    requires i <= |s|
    ensures i + n <= |s|
    ensures forall k :: i <= k < i + n ==> IsPrefixChar(s[k])
    ensures i + n < |s| ==> !IsPrefixChar(s[i + n])
    decreases |s| - i
  {
    if i < |s| && IsPrefixChar(s[i]) then 1 + PrefixRun(s, i + 1) else 0
  }

  function DigitRun(s: string, i: nat): (n: nat)
    requires i <= |s|
    ensures i + n <= |s|
    ensures forall k :: i <= k < i + n ==> IsDigit(s[k])
    ensures i + n < |s| ==> !IsDigit(s[i + n])
    decreases |s| - i
  {
    if i < |s| && IsDigit(s[i]) then 1 + DigitRun(s, i + 1) else 0
  }

  function Min(a: nat, b: nat): nat
  {
    if a < b then a else b
  }

  /** The final character at `p`, if there is one: the end of the match. */
  function FinalAt(s: string, p: nat): (r: Option<nat>)
    ensures r.Some? ==> p < r.value <= |s|
  {
    if p < |s| && IsFinalChar(s[p]) then Some(p + 1) else None
  }

  /**
   * `(?:;[0-9]{0,4})*` followed by the final character, from `p`, in the
   * order the backtracking engine tries the alternatives: one more `;` group
   * first (its digits greedy), the final character last.
   */
  function MoreParams(s: string, p: nat): (r: Option<nat>)
    requires p <= |s|
    ensures r.Some? ==> p < r.value <= |s|
    decreases |s| - p, 1
  {
    if p < |s| && s[p] == ';' then
      match ParamDigits(s, p + 1, Min(4, DigitRun(s, p + 1)))
      case Some(e) => Some(e)
      case None => FinalAt(s, p)
    else FinalAt(s, p)
  }

  /** After the `;` at `q - 1`: try `d` digits, then fewer, down to none. */
  function ParamDigits(s: string, q: nat, d: nat): (r: Option<nat>)
    requires 1 <= q && q + d <= |s|
    ensures r.Some? ==> q < r.value <= |s|
    decreases |s| - q + 1, 0, d
  {
    match MoreParams(s, q + d)
    case Some(e) => Some(e)
    case None => if d == 0 then None else ParamDigits(s, q, d - 1)
  }

  /** `[0-9]{1,4}` at `j` with `k` digits, then fewer, each followed by the rest of the group. */
  function LeadDigits(s: string, j: nat, k: nat): (r: Option<nat>)
    requires j + k <= |s|
    ensures r.Some? ==> j < r.value <= |s|
    decreases k
  {
    if k == 0 then None
    else
      match MoreParams(s, j + k)
      case Some(e) => Some(e)
      case None => LeadDigits(s, j, k - 1)
  }

  /**
   * The length of the escape sequence the pattern matches at the start of
   * `s`, if any. The run of `[[()#;?]` is taken whole: none of those
   * characters is a digit or a final character, so a shorter run never helps.
   */
  function MatchLength(s: string): (r: Option<nat>)
    ensures r.Some? ==> 0 < r.value <= |s|
    ensures r.Some? ==> IsIntroducer(s[0])
  {
    if |s| == 0 || !IsIntroducer(s[0]) then None
    else
      var j := 1 + PrefixRun(s, 1);
      match LeadDigits(s, j, Min(4, DigitRun(s, j)))
      case Some(e) => Some(e)
      case None => FinalAt(s, j)
  }

  /** `removeAnsiCodes(input)`: every leftmost match of the pattern, scanning on after it, is deleted. */
  function RemoveAnsiCodes(input: string): (r: string)
    ensures |r| <= |input|
    decreases |input|
  {
    if |input| == 0 then ""
    else
      match MatchLength(input)
      case Some(n) => RemoveAnsiCodes(input[n..])
      case None => [input[0]] + RemoveAnsiCodes(input[1..])
  }

  predicate NoIntroducer(s: string)
  {
    forall i :: 0 <= i < |s| ==> !IsIntroducer(s[i])
  }

  /** A character that does not start an escape sequence is kept. */
  lemma RemoveAnsiPlainStep(s: string)
    requires |s| > 0 && !IsIntroducer(s[0])
    ensures RemoveAnsiCodes(s) == [s[0]] + RemoveAnsiCodes(s[1..])
  {
    assert MatchLength(s) == None;
  }

  /** Text before the first escape character passes through untouched. */
  lemma {:induction false} RemoveAnsiPlainPrefix(plain: string, rest: string)
    requires NoIntroducer(plain)
    ensures RemoveAnsiCodes(plain + rest) == plain + RemoveAnsiCodes(rest)
    decreases |plain|
  {
    if |plain| > 0 {
      var s := plain + rest;
      assert s[0] == plain[0];
      RemoveAnsiPlainStep(s);
      assert s[1..] == plain[1..] + rest;
      assert NoIntroducer(plain[1..]) by {
        forall i | 0 <= i < |plain[1..]| ensures !IsIntroducer(plain[1..][i]) {
          assert plain[1..][i] == plain[i + 1];
        }
      }
      RemoveAnsiPlainPrefix(plain[1..], rest);
      assert plain == [plain[0]] + plain[1..];
    } else {
      assert plain + rest == rest;
    }
  }

  /** Text without ESC or CSI is returned as it is. */
  lemma RemoveAnsiNoEscape(s: string)
    requires NoIntroducer(s)
    ensures RemoveAnsiCodes(s) == s
  {
    RemoveAnsiPlainPrefix(s, "");
    assert s + "" == s;
  }

  /** A select-graphic-rendition sequence such as ESC "[31m" is removed whole. */
  lemma RemoveSgr(d1: char, d2: char, rest: string)
    requires IsDigit(d1) && IsDigit(d2)
    ensures RemoveAnsiCodes(['\U{001B}', '[', d1, d2, 'm'] + rest) == RemoveAnsiCodes(rest)
  {
    var s := ['\U{001B}', '[', d1, d2, 'm'] + rest;
    assert s[1] == '[' && s[2] == d1 && s[3] == d2 && s[4] == 'm';
    assert PrefixRun(s, 2) == 0;
    assert PrefixRun(s, 1) == 1;
    assert DigitRun(s, 4) == 0;
    assert DigitRun(s, 2) == 2;
    assert MoreParams(s, 4) == Some(5);
    assert MatchLength(s) == Some(5);
    assert s[5..] == rest;
  }

  /** The same for a one-digit parameter, as in the reset sequence ESC "[0m". */
  lemma RemoveSgrOneDigit(d: char, rest: string)
    requires IsDigit(d)
    ensures RemoveAnsiCodes(['\U{001B}', '[', d, 'm'] + rest) == RemoveAnsiCodes(rest)
  {
    var s := ['\U{001B}', '[', d, 'm'] + rest;
    assert s[1] == '[' && s[2] == d && s[3] == 'm';
    assert PrefixRun(s, 2) == 0;
    assert PrefixRun(s, 1) == 1;
    assert DigitRun(s, 3) == 0;
    assert DigitRun(s, 2) == 1;
    assert MoreParams(s, 3) == Some(4);
    assert MatchLength(s) == Some(4);
    assert s[4..] == rest;
  }

  /** Text wrapped in a colour sequence and a reset, as in ESC "[31m" text ESC "[0m", comes out bare. */
  lemma RemoveAnsiColouredText(text: string)
    requires NoIntroducer(text)
    ensures RemoveAnsiCodes(['\U{001B}', '[', '3', '1', 'm'] + text + ['\U{001B}', '[', '0', 'm']) == text
  {
    var reset := ['\U{001B}', '[', '0', 'm'];
    var s := ['\U{001B}', '[', '3', '1', 'm'] + text + reset;
    assert s == ['\U{001B}', '[', '3', '1', 'm'] + (text + reset);
    RemoveSgr('3', '1', text + reset);
    RemoveAnsiPlainPrefix(text, reset);
    RemoveSgrOneDigit('0', "");
    assert reset + "" == reset;
    assert RemoveAnsiCodes("") == "";
  }

  // ---------------------------------------------------------------- truncateOutput

  function TruncationNotice(omitted: int): string
  {
    "\n\n[OUTPUT TRUNCATED \U{2014} " + IntToString(omitted) + " characters omitted]"
  }

  /** `truncateOutput(input, maxLength)`. */
  function TruncateOutput(input: string, maxLength: int): (r: string)
    ensures |input| <= maxLength ==> r == input
    ensures |input| > maxLength ==>
      r == SliceTo(input, maxLength) + TruncationNotice(|input| - maxLength)
  {
    if |input| <= maxLength then input
    else SliceTo(input, maxLength) + TruncationNotice(|input| - maxLength)
  }

  /**
   * Cut at a non-negative limit, the output keeps exactly the first
   * `maxLength` characters, and the notice counts the rest: kept plus
   * omitted is the input length.
   */
  lemma TruncateKeepsPrefix(input: string, maxLength: nat)
    requires |input| > maxLength
    ensures var r := TruncateOutput(input, maxLength);
      StartsWith(r, input[..maxLength])
      && r[maxLength..] == TruncationNotice(|input| - maxLength)
      && maxLength + (|input| - maxLength) == |input|
  {
  }

  /** A negative limit counts from the end, as `slice` does, and the notice reports more than the input length. */
  lemma TruncateNegativeLimit(input: string, maxLength: int)
    requires maxLength < 0
    ensures TruncateOutput(input, maxLength) ==
      input[..(if |input| + maxLength > 0 then |input| + maxLength else 0)]
      + TruncationNotice(|input| - maxLength)
    ensures |input| - maxLength > |input|
  {
  }

  // ---------------------------------------------------------------- sanitizePath

  const TraversalMessage: string := "Path traversal detected \U{2014} access denied"

  /**
   * `sanitizePath(userPath, allowedBase)`, run from the working directory
   * `cwd`: both paths are normalized and resolved, and the result must be the
   * base itself or start with the base followed by '/'.
   */
  function SanitizePath(cwd: string, userPath: string, allowedBase: string): (r: Result<string>)
    ensures r.Err? ==> r.msg == TraversalMessage
    ensures r.Ok? ==> r.value == Resolve(cwd, [Resolve(cwd, [Normalize(allowedBase)]), Normalize(userPath)])
  {
    var resolvedBase := Resolve(cwd, [Normalize(allowedBase)]);
    var resolvedPath := Resolve(cwd, [resolvedBase, Normalize(userPath)]);
    if !StartsWith(resolvedPath, resolvedBase + "/") && resolvedPath != resolvedBase then
      Err(TraversalMessage)
    else Ok(resolvedPath)
  }

  /** The names the base resolves to, from the working directory. */
  function BaseNames(cwd: string, allowedBase: string): seq<string>
  {
    Locate(CwdNames(cwd), allowedBase)
  }

  /** `inner` lies inside `outer`: the same directory, or below a non-root `outer`. */
  predicate Within(inner: seq<string>, outer: seq<string>)
  {
    inner == outer || (|outer| > 0 && |outer| < |inner| && inner[..|outer|] == outer)
  }

  lemma LocateNames(dir: seq<string>, p: string)
    requires Names(dir)
    ensures Names(Locate(dir, p))
  {
    SplitPiecesFreeOfSep(p, '/');
    FoldShape([], Split(p, '/'), false);
    FoldShape(dir, Split(p, '/'), false);
  }

  /**
   * What `sanitizePath` means, component by component: the user path is
   * resolved against the base's names; it is accepted, and returned as an
   * absolute path, exactly when it lands on the base or below it. A root base
   * only admits the root itself, since nothing starts with "//".
   */
  lemma SanitizePathMeaning(cwd: string, userPath: string, allowedBase: string)
    requires IsAbsolute(cwd)
    ensures var base := BaseNames(cwd, allowedBase);
      var target := Locate(base, userPath);
      && Names(base) && Names(target)
      && Resolve(cwd, [Normalize(allowedBase)]) == "/" + Join(base, "/")
      && SanitizePath(cwd, userPath, allowedBase) ==
        if Within(target, base) then Ok("/" + Join(target, "/")) else Err(TraversalMessage)
  {
    var base := BaseNames(cwd, allowedBase);
    var target := Locate(base, userPath);
    SplitPiecesFreeOfSep(cwd, '/');
    FoldShape([], Split(cwd, '/'), false);
    LocateNames(CwdNames(cwd), allowedBase);
    LocateNames(base, userPath);
    ResolveNormalized(cwd, allowedBase);
    ResolveShape(cwd, [Normalize(allowedBase)]);
    var rb := Resolve(cwd, [Normalize(allowedBase)]);
    assert rb == "/" + Join(base, "/");
    ResolveUnder(cwd, base, userPath);
    ResolveShape(cwd, [rb, Normalize(userPath)]);
    assert [rb, Normalize(userPath)] == ["/" + Join(base, "/"), Normalize(userPath)];
    var rp := Resolve(cwd, [rb, Normalize(userPath)]);
    assert rp == "/" + Join(target, "/");
    JoinComponentsInjective(target, base);
    assert rp == rb ==> rp[1..] == rb[1..];
    assert rp == rb <==> target == base;
    if |base| > 0 {
      JoinPrefix(base, target);
      assert StartsWith(rp, rb + "/") <==> StartsWith(Join(target, "/"), Join(base, "/") + "/") by {
        assert rb + "/" == "/" + (Join(base, "/") + "/");
        StartsWithSharedHead("/", Join(target, "/"), Join(base, "/") + "/");
      }
    } else {
      assert rb + "/" == "//";
      if |target| > 0 {
        JoinComponentsHead(target);
        assert rp[1] == Join(target, "/")[0];
      } else {
        assert rp == "/";
      }
      assert !StartsWith(rp, rb + "/");
    }
  }

  /** A relative path of plain names below a non-root base is accepted and appended to the base. */
  lemma SanitizePlainRelative(cwd: string, names: seq<string>, allowedBase: string)
    requires IsAbsolute(cwd) && |names| >= 1 && Names(names)
    requires BaseNames(cwd, allowedBase) != []
    ensures SanitizePath(cwd, Join(names, "/"), allowedBase)
      == Ok("/" + Join(BaseNames(cwd, allowedBase), "/") + "/" + Join(names, "/"))
  {
    var base := BaseNames(cwd, allowedBase);
    var u := Join(names, "/");
    var target := Locate(base, u);
    assert target == base + names by {
      JoinComponentsHead(names);
      SplitJoin(names, '/');
      FoldNames(base, names, false);
    }
    assert Within(target, base) by {
      assert (base + names)[..|base|] == base;
    }
    var joined := Join(base + names, "/");
    assert joined == Join(base, "/") + "/" + Join(names, "/") by {
      JoinAppend(base, names, "/");
    }
    SlashConcat(joined, Join(base, "/"), Join(names, "/"));
    SanitizePathMeaning(cwd, u, allowedBase);
  }

  lemma SlashConcat(joined: string, a: string, b: string)
    requires joined == a + "/" + b
    ensures "/" + joined == "/" + a + "/" + b
  {
  }

  /** With the root as base, only the root itself passes the check. */
  lemma SanitizeRootBase(cwd: string, userPath: string, allowedBase: string)
    requires IsAbsolute(cwd) && BaseNames(cwd, allowedBase) == []
    ensures SanitizePath(cwd, userPath, allowedBase).Ok? <==> Locate([], userPath) == []
    ensures SanitizePath(cwd, userPath, allowedBase).Ok? ==> SanitizePath(cwd, userPath, allowedBase).value == "/"
  {
    SanitizePathMeaning(cwd, userPath, allowedBase);
  }

  /** The base "/tmp/base" used below, as names. */
  lemma TmpBase(cwd: string, base: string)
    requires IsAbsolute(cwd) && base == "/tmp/base"
    ensures BaseNames(cwd, base) == ["tmp", "base"]
  {
    assert base == "/" + Join(["tmp", "base"], "/");
    assert Names(["tmp", "base"]) by {
      assert !HasChar("tmp", '/') && !HasChar("base", '/');
    }
    AbsolutePieces(["tmp", "base"]);
  }

  /** "subdir/file.txt" under "/tmp/base" becomes "/tmp/base/subdir/file.txt". */
  lemma SanitizeAcceptsInside(cwd: string, base: string, file: string)
    requires IsAbsolute(cwd) && base == "/tmp/base" && file == "subdir/file.txt"
    ensures SanitizePath(cwd, file, base) == Ok("/tmp/base/subdir/file.txt")
  {
    TmpBase(cwd, base);
    var names := ["subdir", "file.txt"];
    assert Names(names) by {
      assert !HasChar("subdir", '/') && !HasChar("file.txt", '/');
    }
    assert Join(names, "/") == file;
    SanitizePlainRelative(cwd, names, base);
    InsideLiteral();
  }

  lemma InsideLiteral()
    ensures "/" + Join(["tmp", "base"], "/") + "/" + "subdir/file.txt" == "/tmp/base/subdir/file.txt"
  {
    assert Join(["tmp", "base"], "/") == "tmp/base";
  }

  /** "." under "/tmp/base" is the base itself. */
  lemma SanitizeAcceptsBase(cwd: string, base: string, here: string)
    requires IsAbsolute(cwd) && base == "/tmp/base" && here == "."
    ensures SanitizePath(cwd, here, base) == Ok("/tmp/base")
  {
    TmpBase(cwd, base);
    SanitizePathMeaning(cwd, here, base);
    SplitOne('.', '/');
    assert Split(here, '/') == ["."];
    assert Fold(["tmp", "base"], ["."], false) == Fold(["tmp", "base"], [], false);
    assert Locate(["tmp", "base"], here) == ["tmp", "base"];
    assert "/" + Join(["tmp", "base"], "/") == "/tmp/base";
  }

  /** "../../etc/passwd" climbs out of "/tmp/base", and the absolute "/etc/shadow" is elsewhere: both are refused. */
  lemma SanitizeRejectsOutside(cwd: string, base: string, up: string, shadow: string)
    requires IsAbsolute(cwd) && base == "/tmp/base" && up == "../../etc/passwd" && shadow == "/etc/shadow"
    ensures SanitizePath(cwd, up, base) == Err(TraversalMessage)
    ensures SanitizePath(cwd, shadow, base) == Err(TraversalMessage)
  {
    TmpBase(cwd, base);
    UpLocated();
    SanitizePathMeaning(cwd, up, base);
    ShadowLocated();
    SanitizePathMeaning(cwd, shadow, base);
  }

  lemma UpLocated()
    ensures Locate(["tmp", "base"], "../../etc/passwd") == ["etc", "passwd"]
  {
    var upNames := ["..", "..", "etc", "passwd"];
    assert FreeOf(upNames, '/') by {
      assert !HasChar("..", '/') && !HasChar("etc", '/') && !HasChar("passwd", '/');
    }
    UpJoin();
    SplitJoin(upNames, '/');
    assert Split("../../etc/passwd", '/') == upNames;
    assert !IsAbsolute("../../etc/passwd");
    UpFold();
  }

  lemma UpFold()
    ensures Fold(["tmp", "base"], ["..", "..", "etc", "passwd"], false) == ["etc", "passwd"]
  {
    assert Step(["tmp", "base"], "..", false) == ["tmp"];
    assert Step(["tmp"], "..", false) == [];
    assert Fold([], ["etc", "passwd"], false) == ["etc", "passwd"];
  }

  lemma UpJoin()
    ensures Join(["..", "..", "etc", "passwd"], "/") == "../../etc/passwd"
  {
  }

  lemma ShadowLocated()
    ensures Locate(["tmp", "base"], "/etc/shadow") == ["etc", "shadow"]
  {
    var shadowNames := ["etc", "shadow"];
    assert Names(shadowNames) by {
      assert !HasChar("etc", '/') && !HasChar("shadow", '/');
    }
    ShadowJoin();
    AbsolutePieces(shadowNames);
  }

  lemma ShadowJoin()
    ensures "/etc/shadow" == "/" + Join(["etc", "shadow"], "/")
  {
  }
}
