/** String helpers with the meaning JavaScript gives them (`startsWith`, `includes`, `split`, `join`). */
module Text {

  predicate StartsWith(s: string, prefix: string)
  {
    |prefix| <= |s| && s[..|prefix|] == prefix
  }

  predicate EndsWith(s: string, suffix: string)
  {
    |suffix| <= |s| && s[|s| - |suffix|..] == suffix
  }

  /** A shared head does not change whether one string starts with another. */
  lemma StartsWithSharedHead(head: string, s: string, prefix: string)
    ensures StartsWith(head + s, head + prefix) <==> StartsWith(s, prefix)
  {
    if StartsWith(head + s, head + prefix) {
      assert s[..|prefix|] == (head + s)[|head|..|head| + |prefix|] == (head + prefix)[|head|..];
    }
    if StartsWith(s, prefix) {
      assert (head + s)[..|head + prefix|] == head + s[..|prefix|];
    }
  }

  /** `s.includes(sub)`: `sub` occurs somewhere in `s` (the empty string occurs everywhere). */
  predicate Contains(s: string, sub: string)
  {
    exists i :: 0 <= i <= |s| - |sub| && OccursAt(s, sub, i)
  }

  /** `sub` occurs in `s` starting at index `i`. */
  predicate OccursAt(s: string, sub: string, i: int)
  {
    0 <= i && i + |sub| <= |s| && s[i..i + |sub|] == sub
  }

  predicate HasChar(s: string, c: char)
  {
    exists i :: 0 <= i < |s| && s[i] == c
  }

  /** `s.split(sep)` for a one-character separator: always at least one piece. */
  function Split(s: string, sep: char): (r: seq<string>)
    ensures |r| >= 1
    decreases |s|
  {
    if |s| == 0 then [""]
    else
      var rest := Split(s[1..], sep);
      if s[0] == sep then [""] + rest
      else [[s[0]] + rest[0]] + rest[1..]
  }

  /** `xs.join(sep)`. */
  function Join(xs: seq<string>, sep: string): string
    decreases |xs|
  {
    if |xs| == 0 then ""
    else if |xs| == 1 then xs[0]
    else xs[0] + sep + Join(xs[1..], sep)
  }

  /** No piece contains the separator character. */
  predicate FreeOf(xs: seq<string>, c: char)
  {
    forall i :: 0 <= i < |xs| ==> !HasChar(xs[i], c)
  }

  lemma {:induction false} SplitPiecesFreeOfSep(s: string, sep: char)
    ensures FreeOf(Split(s, sep), sep)
    decreases |s|
  {
    if |s| > 0 {
      SplitPiecesFreeOfSep(s[1..], sep);
      var rest := Split(s[1..], sep);
      if s[0] != sep {
        var head := [s[0]] + rest[0];
        assert !HasChar(rest[0], sep);
        forall j | 0 <= j < |head| ensures head[j] != sep {
          if j > 0 { assert head[j] == rest[0][j - 1]; }
        }
      }
    }
  }

  /** Joining the pieces of a split with the separator gives the original string back. */
  lemma {:induction false} JoinSplit(s: string, sep: char)
    ensures Join(Split(s, sep), [sep]) == s
    decreases |s|
  {
    if |s| > 0 {
      JoinSplit(s[1..], sep);
      var rest := Split(s[1..], sep);
      if s[0] == sep {
        assert Split(s, sep) == [""] + rest;
        assert ([""] + rest)[1..] == rest;
        assert Join([""] + rest, [sep]) == "" + [sep] + Join(rest, [sep]);
        assert s == [s[0]] + s[1..];
      } else {
        var r := Split(s, sep);
        assert r == [[s[0]] + rest[0]] + rest[1..];
        if |rest| == 1 {
          assert r == [[s[0]] + rest[0]];
          assert s == [s[0]] + s[1..];
        } else {
          assert r[1..] == rest[1..];
          assert Join(rest, [sep]) == rest[0] + [sep] + Join(rest[1..], [sep]);
          assert Join(r, [sep]) == ([s[0]] + rest[0]) + [sep] + Join(rest[1..], [sep]);
          assert s == [s[0]] + s[1..];
        }
      }
    }
  }

  /** Splitting a join of separator-free pieces gives the pieces back. */
  lemma {:induction false} SplitJoin(xs: seq<string>, sep: char)
    requires |xs| >= 1 && FreeOf(xs, sep)
    ensures Split(Join(xs, [sep]), sep) == xs
    decreases |xs|
  {
    if |xs| == 1 {
      SplitFree(xs[0], sep);
    } else {
      assert FreeOf(xs[1..], sep) by {
        forall i | 0 <= i < |xs[1..]| ensures !HasChar(xs[1..][i], sep) {
          assert xs[1..][i] == xs[i + 1];
        }
      }
      SplitJoin(xs[1..], sep);
      assert !HasChar(xs[0], sep);
      SplitAppend(xs[0], Join(xs[1..], [sep]), sep);
      SplitFree(xs[0], sep);
      assert Join(xs, [sep]) == xs[0] + [sep] + Join(xs[1..], [sep]);
      assert [xs[0]] + xs[1..] == xs;
    }
  }

  /** A string without the separator splits into itself. */
  lemma {:induction false} SplitFree(s: string, sep: char)
    requires !HasChar(s, sep)
    ensures Split(s, sep) == [s]
    decreases |s|
  {
    if |s| > 0 {
      assert !HasChar(s[1..], sep) by {
        forall i | 0 <= i < |s[1..]| ensures s[1..][i] != sep {
          assert s[1..][i] == s[i + 1];
        }
      }
      SplitFree(s[1..], sep);
      assert s[0] != sep;
      assert [s[0]] + s[1..] == s;
    }
  }

  lemma SplitOne(c: char, sep: char)
    requires c != sep
    ensures Split([c], sep) == [[c]]
  {
    assert [c][1..] == "";
    var rest := Split("", sep);
    assert rest == [""];
    assert [c] + rest[0] == [c];
    assert rest[1..] == [];
  }

  /** One step of `Split`: the first character either closes a piece or joins the first one. */
  lemma SplitCons(c: char, rest: string, sep: char)
    ensures var r := Split(rest, sep);
      Split([c] + rest, sep) == if c == sep then [""] + r else [[c] + r[0]] + r[1..]
  {
    assert ([c] + rest)[1..] == rest;
  }

  /** Gluing a character onto the first piece commutes with appending more pieces. */
  lemma GlueFirst(c: char, xs: seq<string>, ys: seq<string>)
    requires |xs| >= 1
    ensures [[c] + (xs + ys)[0]] + (xs + ys)[1..] == ([[c] + xs[0]] + xs[1..]) + ys
  {
    assert (xs + ys)[1..] == xs[1..] + ys;
  }

  /** A leading character stays in front when more text is appended. */
  lemma ConsAppend(c: char, a: string, sep: char, b: string)
    ensures [c] + a + [sep] + b == [c] + (a + [sep] + b)
  {
  }

  /** Splitting distributes over a separator placed between two strings. */
  lemma {:induction false} SplitAppend(a: string, b: string, sep: char)
    ensures Split(a + [sep] + b, sep) == Split(a, sep) + Split(b, sep)
    decreases |a|
  {
    if |a| == 0 {
      assert a + [sep] + b == [sep] + b;
      SplitCons(sep, b, sep);
    } else {
      var c, a1 := a[0], a[1..];
      assert a == [c] + a1;
      ConsAppend(c, a1, sep, b);
      SplitAppend(a1, b, sep);
      SplitAppendStep(c, a1 + [sep] + b, a1, sep, Split(a1, sep), Split(b, sep));
    }
  }

  /** One character more in front of the left part: the step of `SplitAppend`. */
  lemma SplitAppendStep(c: char, t: string, a: string, sep: char, xs: seq<string>, ys: seq<string>)
    requires Split(t, sep) == xs + ys && Split(a, sep) == xs
    ensures Split([c] + t, sep) == Split([c] + a, sep) + ys
  {
    SplitCons(c, t, sep);
    SplitCons(c, a, sep);
    if c != sep {
      GlueFirst(c, xs, ys);
    } else {
      AppendAssoc([""], xs, ys);
    }
  }

  /** Regrouping a concatenation, stated once so that long argument lists need not be unfolded. */
  lemma AppendAssoc<T>(a: seq<T>, b: seq<T>, c: seq<T>)
    ensures a + (b + c) == (a + b) + c
  {
  }

  /** Four pieces appended one at a time equal the four pieces appended as one block. */
  lemma AppendAssoc4<T>(a: seq<T>, s1: seq<T>, s2: seq<T>, s3: seq<T>, s4: seq<T>)
    ensures a + s1 + s2 + s3 + s4 == a + (s1 + s2 + s3 + s4)
  {
  }

  /** Five pieces appended one at a time equal the five pieces appended as one block. */
  lemma AppendAssoc5<T>(a: seq<T>, s1: seq<T>, s2: seq<T>, s3: seq<T>, s4: seq<T>, s5: seq<T>)
    ensures a + s1 + s2 + s3 + s4 + s5 == a + (s1 + s2 + s3 + s4 + s5)
  {
  }

  /** Six pieces appended one at a time equal the six pieces appended as one block. */
  lemma AppendAssoc6<T>(a: seq<T>, s1: seq<T>, s2: seq<T>, s3: seq<T>, s4: seq<T>, s5: seq<T>, s6: seq<T>)
    ensures a + s1 + s2 + s3 + s4 + s5 + s6 == a + (s1 + s2 + s3 + s4 + s5 + s6)
  {
  }

  /** Eight pieces appended one at a time equal the eight pieces appended as one block. */
  lemma AppendAssoc8<T>(a: seq<T>, s1: seq<T>, s2: seq<T>, s3: seq<T>, s4: seq<T>, s5: seq<T>, s6: seq<T>, s7: seq<T>, s8: seq<T>)
    ensures a + s1 + s2 + s3 + s4 + s5 + s6 + s7 + s8 == a + (s1 + s2 + s3 + s4 + s5 + s6 + s7 + s8)
  {
  }

  /** A string holding the separator splits into at least two pieces. */
  lemma SplitHasTwoPieces(s: string, sep: char)
    requires HasChar(s, sep)
    ensures |Split(s, sep)| >= 2
  {
    var i :| 0 <= i < |s| && s[i] == sep;
    assert s == s[..i] + [sep] + s[i + 1..];
    SplitAppend(s[..i], s[i + 1..], sep);
  }

  /** Joining two non-empty lists puts one separator between their joins. */
  lemma {:induction false} JoinAppend(xs: seq<string>, ys: seq<string>, sep: string)
    requires |xs| >= 1 && |ys| >= 1
    ensures Join(xs + ys, sep) == Join(xs, sep) + sep + Join(ys, sep)
    decreases |xs|
  {
    if |xs| == 1 {
      assert (xs + ys)[1..] == ys;
    } else {
      JoinAppend(xs[1..], ys, sep);
      assert (xs + ys)[1..] == xs[1..] + ys;
    }
  }

  /** How many times `c` occurs in `s`. */
  function CountChar(s: string, c: char): (n: nat)
    ensures n <= |s|
    decreases |s|
  {
    if |s| == 0 then 0 else (if s[0] == c then 1 else 0) + CountChar(s[1..], c)
  }

  /** `s.split(sep)` has one piece more than `s` has separators. */
  lemma {:induction false} SplitCount(s: string, sep: char)
    ensures |Split(s, sep)| == CountChar(s, sep) + 1
    decreases |s|
  {
    if |s| > 0 {
      SplitCount(s[1..], sep);
    }
  }

  /** ASCII lower-casing; every other character is left as it is. */
  function ToLowerChar(c: char): char
  {
    if 'A' <= c <= 'Z' then (c as int + 32) as char else c
  }

  function ToLower(s: string): (r: string)
    ensures |r| == |s|
    ensures forall i :: 0 <= i < |s| ==> r[i] == ToLowerChar(s[i])
  {
    seq(|s|, i requires 0 <= i < |s| => ToLowerChar(s[i]))
  }

  predicate IsDigit(c: char)
  {
    '0' <= c <= '9'
  }

  predicate IsAsciiAlnum(c: char)
  {
    IsDigit(c) || 'a' <= c <= 'z' || 'A' <= c <= 'Z'
  }

  /** A regular-expression word character `\w`. */
  predicate IsWordChar(c: char)
  {
    IsAsciiAlnum(c) || c == '_'
  }
}
