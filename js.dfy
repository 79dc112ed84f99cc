/**
 * The JavaScript built-ins the servers lean on, with their exact meaning:
 * truthiness of optional parameters, `String(n)` for integers, `parseInt`,
 * `Array.prototype.slice(0, end)`, `find`, `filter` and `some`, and
 * `String.prototype.trim`.
 */
module Js {
  import opened Wrappers
  import opened Text

  // ---------------------------------------------------------------- truthiness

  /** `if (s)` on an optional string: present and non-empty. */
  predicate Truthy(s: Option<string>)
  {
    s.Some? && s.value != ""
  }

  /** `if (b)` on an optional boolean. */
  predicate IsTrue(b: Option<bool>)
  {
    b == Some(true)
  }

  /** `if (n)` on an optional number: present and non-zero. */
  predicate NonZero(n: Option<int>)
  {
    n.Some? && n.value != 0
  }

  /** `if (xs && xs.length > 0)` on an optional array. */
  predicate NonEmpty<T>(xs: Option<seq<T>>)
  {
    xs.Some? && |xs.value| > 0
  }

  /** `a || b` on strings: `a` unless it is empty. */
  function OrElse(a: string, b: string): (r: string)
    ensures r == a || r == b
    ensures r == "" ==> a == "" && b == ""
  {
    if a != "" then a else b
  }

  /** `s || fallback` on an optional string. */
  function OptOrElse(s: Option<string>, fallback: string): (r: string)
    ensures Truthy(s) ==> r == s.value
    ensures !Truthy(s) ==> r == fallback
  {
    if Truthy(s) then s.value else fallback
  }

  /** `xs ?? fallback` on an optional array. */
  function ListOrEmpty<T>(xs: Option<seq<T>>): seq<T>
  {
    if xs.Some? then xs.value else []
  }

  // ---------------------------------------------------------------- numbers

  function DigitChar(d: nat): (c: char)
    requires d < 10
    ensures IsDigit(c)
  {
    ('0' as int + d) as char
  }

  /** Decimal digits of a natural number, most significant first, no leading zero. */
  function NatToString(n: nat): (r: string)
    ensures |r| >= 1
    ensures forall i :: 0 <= i < |r| ==> IsDigit(r[i])
    ensures |r| > 1 ==> r[0] != '0'
    decreases n
  {
    if n < 10 then [DigitChar(n)] else NatToString(n / 10) + [DigitChar(n % 10)]
  }

  /** `String(n)` for an integer-valued number. */
  function IntToString(n: int): (r: string)
    ensures |r| >= 1
    ensures r[0] == '-' <==> n < 0
  {
    if n < 0 then "-" + NatToString(-n) else NatToString(n)
  }

  /** Value of a digit in radices up to 16, or `radix` itself when `c` is not a digit of that radix. */
  function DigitValue(c: char, radix: nat): (d: nat)
    requires radix == 10 || radix == 16
    ensures d <= radix
  {
    var v :=
      if '0' <= c <= '9' then c as int - '0' as int
      else if 'a' <= c <= 'z' then c as int - 'a' as int + 10
      else if 'A' <= c <= 'Z' then c as int - 'A' as int + 10
      else radix;
    if v < radix then v else radix
  }

  /** The longest prefix of `s` made of digits of `radix`. */
  function DigitPrefix(s: string, radix: nat): (z: string)
    requires radix == 10 || radix == 16
    ensures |z| <= |s| && z == s[..|z|]
    ensures forall i :: 0 <= i < |z| ==> DigitValue(z[i], radix) < radix
    ensures |z| < |s| ==> DigitValue(s[|z|], radix) == radix
  {
    if |s| == 0 || DigitValue(s[0], radix) == radix then ""
    else [s[0]] + DigitPrefix(s[1..], radix)
  }

  /** The number a string of digits denotes. */
  function DigitsValue(z: string, radix: nat): nat
    requires radix == 10 || radix == 16
    decreases |z|
  {
    if |z| == 0 then 0
    else
      var d := DigitValue(z[|z| - 1], radix);
      DigitsValue(z[..|z| - 1], radix) * radix + (if d < radix then d else 0)
  }

  /**
   * `parseInt(s)` without a radix argument: leading white space is skipped,
   * one sign is read, a `0x`/`0X` prefix switches to hexadecimal, and the
   * longest run of digits is read. `None` stands for `NaN` (no digits at all).
   * Negative zero is reported as 0, which is falsy like -0.
   */
  function ParseInt(s: string): (r: Option<int>)
  {
    var t := TrimStart(s);
    var negative := |t| > 0 && t[0] == '-';
    var u := if |t| > 0 && (t[0] == '-' || t[0] == '+') then t[1..] else t;
    var hex := |u| >= 2 && u[0] == '0' && (u[1] == 'x' || u[1] == 'X');
    var radix := if hex then 16 else 10;
    var z := DigitPrefix(if hex then u[2..] else u, radix);
    if |z| == 0 then None
    else
      var v: int := DigitsValue(z, radix);
      Some(if negative then -v else v)
  }

  lemma {:induction false} ValueOfNatToString(n: nat)
    ensures DigitsValue(NatToString(n), 10) == n
    decreases n
  {
    var s := NatToString(n);
    if n < 10 {
      assert DigitValue(s[0], 10) == n;
      assert s[..0] == "";
    } else {
      ValueOfNatToString(n / 10);
      assert s[..|s| - 1] == NatToString(n / 10);
      assert DigitValue(s[|s| - 1], 10) == n % 10;
    }
  }

  lemma {:induction false} AllDigitsPrefix(s: string, rest: string)
    requires forall i :: 0 <= i < |s| ==> IsDigit(s[i])
    requires |rest| == 0 || !IsDigit(rest[0])
    ensures DigitPrefix(s + rest, 10) == s
    decreases |s|
  {
    if |s| > 0 {
      AllDigitsPrefix(s[1..], rest);
      assert (s + rest)[1..] == s[1..] + rest;
      assert [s[0]] + s[1..] == s;
    } else {
      assert s + rest == rest;
    }
  }

  /** `parseInt` once white space, sign and radix prefix are settled. */
  lemma ParseIntDecimal(s: string, negative: bool, u: string, digits: string)
    requires TrimStart(s) == s
    requires (|s| > 0 && s[0] == '-') == negative
    requires u == if |s| > 0 && (s[0] == '-' || s[0] == '+') then s[1..] else s
    requires !(|u| >= 2 && u[0] == '0' && (u[1] == 'x' || u[1] == 'X'))
    requires DigitPrefix(u, 10) == digits && |digits| > 0
    ensures var v: int := DigitsValue(digits, 10);
      ParseInt(s) == Some(if negative then -v else v)
  {
  }

  /** A string that starts with a sign or a digit has no leading white space to trim. */
  lemma TrimStartUnspaced(s: string)
    requires |s| > 0 && (s[0] == '-' || IsDigit(s[0]))
    ensures TrimStart(s) == s
  {
    assert !IsWhitespace(s[0]);
  }

  /** `parseInt` on an optional minus sign, decimal digits and a tail that cannot extend them. */
  lemma ParseIntOfDigits(s: string, negative: bool, digits: string, rest: string)
    requires |digits| >= 1 && forall i :: 0 <= i < |digits| ==> IsDigit(digits[i])
    requires |digits| > 1 ==> digits[0] != '0'
    requires |rest| == 0 || (!IsDigit(rest[0]) && rest[0] != 'x' && rest[0] != 'X')
    requires s == if negative then ['-'] + (digits + rest) else digits + rest
    ensures var v: int := DigitsValue(digits, 10);
      ParseInt(s) == Some(if negative then -v else v)
  {
    var u := digits + rest;
    AllDigitsPrefix(digits, rest);
    assert u[0] == digits[0];
    TrimStartUnspaced(s);
    if negative {
      assert s[1..] == u;
    }
    assert !(|u| >= 2 && u[0] == '0' && (u[1] == 'x' || u[1] == 'X')) by {
      if |u| >= 2 && u[0] == '0' {
        assert |digits| == 1;
        assert u[1] == rest[0];
      }
    }
    ParseIntDecimal(s, negative, u, digits);
  }

  /**
   * `parseInt` reads back the number `String(n)` wrote, also when more text
   * follows, as long as that text does not start with a digit or an `x`
   * (which would turn a lone "0" into a hexadecimal prefix).
   */
  lemma ParseIntOfIntToStringThen(n: int, rest: string)
    requires |rest| == 0 || (!IsDigit(rest[0]) && rest[0] != 'x' && rest[0] != 'X')
    ensures ParseInt(IntToString(n) + rest) == Some(n)
  {
    var m: nat := if n < 0 then -n else n;
    var digits := NatToString(m);
    ValueOfNatToString(m);
    var s := IntToString(n) + rest;
    assert s == if n < 0 then ['-'] + (digits + rest) else digits + rest;
    ParseIntOfDigits(s, n < 0, digits, rest);
  }

  /** A number written after a fixed text reads back from where the text ends. */
  lemma ParseIntAfter(head: string, n: int, rest: string, text: string)
    requires |rest| == 0 || (!IsDigit(rest[0]) && rest[0] != 'x' && rest[0] != 'X')
    requires text == head + IntToString(n) + rest
    ensures |head| <= |text| && text[..|head|] == head && ParseInt(text[|head|..]) == Some(n)
  {
    AfterHead(head, IntToString(n), rest, text);
    ParseIntOfIntToStringThen(n, rest);
  }

  lemma AfterHead(head: string, mid: string, tail: string, text: string)
    requires text == head + mid + tail
    ensures |head| <= |text| && text[..|head|] == head && text[|head|..] == mid + tail
  {
  }

  /** `parseInt(String(n))` gives `n` back for every integer. */
  lemma ParseIntOfIntToString(n: int)
    ensures ParseInt(IntToString(n)) == Some(n)
  {
    ParseIntOfIntToStringThen(n, "");
    assert IntToString(n) + "" == IntToString(n);
  }

  // ---------------------------------------------------------------- slices

  /** The end index `Array.prototype.slice(0, end)` stops at: a negative end counts from the back. */
  function SliceEnd(len: nat, end: int): (k: nat)
    ensures k <= len
    ensures 0 <= end ==> k == if end < len then end else len
    ensures end < 0 ==> k == if len + end > 0 then len + end else 0
  {
    if end < 0 then (if len + end > 0 then len + end else 0)
    else if end < len then end else len
  }

  /** `xs.slice(0, end)`. */
  function SliceTo<T>(xs: seq<T>, end: int): (r: seq<T>)
    ensures r == xs[..SliceEnd(|xs|, end)]
  {
    xs[..SliceEnd(|xs|, end)]
  }

  // ---------------------------------------------------------------- searching arrays

  /** `xs.findIndex(p)`, with "none" written as `|xs|`: the first index whose element satisfies `p`. */
  function FindIndex<T>(xs: seq<T>, p: T -> bool): (i: nat)
    ensures i <= |xs|
    ensures i < |xs| ==> p(xs[i])
    ensures forall j :: 0 <= j < i ==> !p(xs[j])
    decreases |xs|
  {
    if |xs| == 0 || p(xs[0]) then 0
    else
      var k := FindIndex(xs[1..], p);
      assert forall j :: 1 <= j < 1 + k ==> xs[j] == xs[1..][j - 1];
      1 + k
  }

  /** `xs.find(p)`: the first element satisfying `p`, if any. */
  function Find<T>(xs: seq<T>, p: T -> bool): (r: Option<T>)
    ensures r.Some? ==> r.value in xs && p(r.value)
    ensures r.None? ==> forall x :: x in xs ==> !p(x)
  {
    var i := FindIndex(xs, p);
    if i < |xs| then Some(xs[i]) else None
  }

  /** `xs.some(p)`. */
  predicate Any<T>(xs: seq<T>, p: T -> bool)
  {
    FindIndex(xs, p) < |xs|
  }

  /** `xs.filter(p)`: the elements satisfying `p`, in their order. */
  function Filter<T>(xs: seq<T>, p: T -> bool): (r: seq<T>)
    ensures |r| <= |xs|
    ensures forall y :: y in r ==> y in xs && p(y)
    ensures forall x :: x in xs && p(x) ==> x in r
    decreases |xs|
  {
    if |xs| == 0 then []
    else (if p(xs[0]) then [xs[0]] else []) + Filter(xs[1..], p)
  }

  /** The last element `filter` keeps is the last element of the array that satisfies `p`. */
  lemma {:induction false} FilterLast<T>(xs: seq<T>, p: T -> bool) returns (k: nat)
    requires |Filter(xs, p)| > 0
    ensures k < |xs| && Filter(xs, p)[|Filter(xs, p)| - 1] == xs[k] && p(xs[k])
    ensures forall j :: k < j < |xs| ==> !p(xs[j])
    decreases |xs|
  {
    var rest := Filter(xs[1..], p);
    if |rest| > 0 {
      var k' := FilterLast(xs[1..], p);
      k := k' + 1;
      assert forall j :: k < j < |xs| ==> xs[j] == xs[1..][j - 1];
    } else {
      k := 0;
      assert forall j :: 0 < j < |xs| ==> xs[j] in xs[1..];
    }
  }

  /** Filtering a concatenation filters each part. */
  lemma {:induction false} FilterAppend<T>(xs: seq<T>, ys: seq<T>, p: T -> bool)
    ensures Filter(xs + ys, p) == Filter(xs, p) + Filter(ys, p)
    decreases |xs|
  {
    if |xs| > 0 {
      assert (xs + ys)[0] == xs[0];
      assert (xs + ys)[1..] == xs[1..] + ys;
      FilterAppend(xs[1..], ys, p);
    } else {
      assert xs + ys == ys;
    }
  }

  /** When every element satisfies `p`, `filter` keeps the array as it is. */
  lemma {:induction false} FilterKeepsAll<T>(xs: seq<T>, p: T -> bool)
    requires forall i :: 0 <= i < |xs| ==> p(xs[i])
    ensures Filter(xs, p) == xs
    decreases |xs|
  {
    if |xs| > 0 {
      assert forall i :: 0 <= i < |xs[1..]| ==> p(xs[1..][i]) by {
        forall i | 0 <= i < |xs[1..]| ensures p(xs[1..][i]) {
          assert xs[1..][i] == xs[i + 1];
        }
      }
      FilterKeepsAll(xs[1..], p);
      assert p(xs[0]);
      assert Filter(xs, p) == [xs[0]] + Filter(xs[1..], p);
      assert [xs[0]] + xs[1..] == xs;
    }
  }

  // ---------------------------------------------------------------- white space

  /** ECMAScript WhiteSpace and LineTerminator code points: what `trim` and `\s` accept. */
  predicate IsWhitespace(c: char)
  {
    c == '\t' || c == '\n' || c == '\U{000B}' || c == '\U{000C}' || c == '\r' || c == ' '
    || c == '\U{00A0}' || c == '\U{1680}' || ('\U{2000}' <= c <= '\U{200A}')
    || c == '\U{2028}' || c == '\U{2029}' || c == '\U{202F}' || c == '\U{205F}'
    || c == '\U{3000}' || c == '\U{FEFF}'
  }

  /** Characters `.` in a regular expression refuses to match. */
  predicate IsLineTerminator(c: char)
  {
    c == '\n' || c == '\r' || c == '\U{2028}' || c == '\U{2029}'
  }

  function TrimStart(s: string): (r: string)
    ensures |r| <= |s| && r == s[|s| - |r|..]
    ensures |r| > 0 ==> !IsWhitespace(r[0])
    ensures forall i :: 0 <= i < |s| - |r| ==> IsWhitespace(s[i])
  {
    if |s| > 0 && IsWhitespace(s[0]) then TrimStart(s[1..]) else s
  }

  function TrimEnd(s: string): (r: string)
    ensures |r| <= |s| && r == s[..|r|]
    ensures |r| > 0 ==> !IsWhitespace(r[|r| - 1])
    ensures forall i :: |r| <= i < |s| ==> IsWhitespace(s[i])
  {
    if |s| > 0 && IsWhitespace(s[|s| - 1]) then TrimEnd(s[..|s| - 1]) else s
  }

  /** `s.trim()`. */
  function Trim(s: string): string
  {
    TrimEnd(TrimStart(s))
  }
}
