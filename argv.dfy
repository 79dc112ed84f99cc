/**
 * The shape every tool handler gives its command line: a sequence of
 * segments, each a lone flag, a flag with its value, or a bare word
 * (a positional argument, or one element of a flag's list). The handlers
 * push these onto an array one by one; `Render` is that array.
 */
module Argv {
  import opened Wrappers
  import opened Text
  import opened Js
  import opened ToolArgs

  datatype Arg = Flag(name: string) | Pair(name: string, value: string) | Word(text: string)

  /** The argument strings, in order. */
  function Render(segs: seq<Arg>): (r: seq<string>)
    ensures |r| >= |segs|
    decreases |segs|
  {
    if |segs| == 0 then []
    else
      var head := match segs[0]
        case Flag(n) => [n]
        case Pair(n, v) => [n, v]
        case Word(t) => [t];
      head + Render(segs[1..])
  }

  lemma {:induction false} RenderAppend(a: seq<Arg>, b: seq<Arg>)
    ensures Render(a + b) == Render(a) + Render(b)
    decreases |a|
  {
    if |a| == 0 {
      assert a + b == b;
    } else {
      assert (a + b)[1..] == a[1..] + b;
      RenderAppend(a[1..], b);
    }
  }

  /** The length of a rendered concatenation is the sum of the parts' lengths. */
  lemma RenderLengthAppend(a: seq<Arg>, b: seq<Arg>)
    ensures |Render(a + b)| == |Render(a)| + |Render(b)|
  {
    RenderAppend(a, b);
  }

  /** A lone segment renders to two strings when it is a flag with a value, else to one. */
  lemma RenderOneLength(s: seq<Arg>)
    requires |s| <= 1
    ensures |Render(s)| == if |s| == 0 then 0 else if s[0].Pair? then 2 else 1
  {
    if |s| == 1 {
      assert |s[1..]| == 0;
    }
  }

  // ---------------------------------------------------------------- segment builders

  /** `if (v) args.push(name, v)`: a string option, left out when absent or empty. */
  function TextOpt(name: string, v: Option<string>): (r: seq<Arg>)
    ensures forall s :: s in r ==> s.Pair? && s.name == name
  {
    if Truthy(v) then [Pair(name, v.value)] else []
  }

  /** `if (n !== undefined) args.push(name, n.toString())`: emitted for every given number, 0 included. */
  function NumOpt(name: string, n: Option<int>): (r: seq<Arg>)
    ensures forall s :: s in r ==> s.Pair? && s.name == name
  {
    if n.Some? then [Pair(name, IntToString(n.value))] else []
  }

  /** `if (n) args.push(name, String(n))`: a number, left out when absent or 0. */
  function NumTruthy(name: string, n: Option<int>): (r: seq<Arg>)
    ensures forall s :: s in r ==> s.Pair? && s.name == name
  {
    if NonZero(n) then [Pair(name, IntToString(n.value))] else []
  }

  /** `if (b) args.push(name)`: a switch. */
  function Switch(name: string, b: Option<bool>): (r: seq<Arg>)
    ensures forall s :: s in r ==> s == Flag(name)
  {
    if IsTrue(b) then [Flag(name)] else []
  }

  /** `if (xs && xs.length > 0) args.push(name, xs.join(","))`. */
  function JoinedOpt(name: string, xs: Option<seq<string>>): (r: seq<Arg>)
    ensures forall s :: s in r ==> s.Pair? && s.name == name
  {
    if NonEmpty(xs) then [Pair(name, Join(xs.value, ","))] else []
  }

  /** `for (const x of xs) args.push(name, x)`: one pair per element, in order. */
  function EachPair(name: string, xs: seq<string>): (r: seq<Arg>)
    ensures |r| == |xs| && forall i :: 0 <= i < |xs| ==> r[i] == Pair(name, xs[i])
    ensures forall s :: s in r ==> s.Pair? && s.name == name
  {
    seq(|xs|, i requires 0 <= i < |xs| => Pair(name, xs[i]))
  }

  /** The elements as bare words, in order. */
  function Words(xs: seq<string>): (r: seq<Arg>)
    ensures |r| == |xs| && forall i :: 0 <= i < |xs| ==> r[i] == Word(xs[i])
  {
    seq(|xs|, i requires 0 <= i < |xs| => Word(xs[i]))
  }

  /** `if (xs && xs.length > 0) args.push(name, ...xs)`: the flag once, then every element. */
  function FlagThenWords(name: string, xs: Option<seq<string>>): (r: seq<Arg>)
  {
    if NonEmpty(xs) then [Flag(name)] + Words(xs.value) else []
  }

  lemma RenderEachPair(name: string, xs: seq<string>)
    ensures |Render(EachPair(name, xs))| == 2 * |xs|
    ensures forall i :: 0 <= i < |xs| ==>
      Render(EachPair(name, xs))[2 * i] == name && Render(EachPair(name, xs))[2 * i + 1] == xs[i]
  {
    RenderEachPairFrom(name, xs);
  }

  lemma {:induction false} RenderEachPairFrom(name: string, xs: seq<string>)
    ensures var r := Render(EachPair(name, xs));
      |r| == 2 * |xs| && forall i :: 0 <= i < |xs| ==> r[2 * i] == name && r[2 * i + 1] == xs[i]
    decreases |xs|
  {
    if |xs| > 0 {
      RenderEachPairFrom(name, xs[1..]);
      var segs := EachPair(name, xs);
      assert segs[1..] == EachPair(name, xs[1..]);
      var r := Render(segs);
      var tail := Render(EachPair(name, xs[1..]));
      assert r == [name, xs[0]] + tail;
      forall i | 0 <= i < |xs| ensures r[2 * i] == name && r[2 * i + 1] == xs[i] {
        if i > 0 {
          assert r[2 * i] == tail[2 * (i - 1)];
          assert r[2 * i + 1] == tail[2 * (i - 1) + 1];
        }
      }
    }
  }

  /** Bare words render as themselves. */
  lemma {:induction false} RenderWords(xs: seq<string>)
    ensures Render(Words(xs)) == xs
    decreases |xs|
  {
    if |xs| > 0 {
      assert Words(xs)[1..] == Words(xs[1..]);
      RenderWords(xs[1..]);
      assert [xs[0]] + xs[1..] == xs;
    }
  }

  /** `for (const x of xs) args.push(prefix + x)`: one lone argument per element. */
  function Prefixed(prefix: string, xs: seq<string>): (r: seq<Arg>)
    ensures |r| == |xs| && forall i :: 0 <= i < |xs| ==> r[i] == Flag(prefix + xs[i])
  {
    seq(|xs|, i requires 0 <= i < |xs| => Flag(prefix + xs[i]))
  }

  /** Each prefixed element renders as one argument. */
  lemma {:induction false} RenderPrefixed(prefix: string, xs: seq<string>)
    ensures var r := Render(Prefixed(prefix, xs));
      |r| == |xs| && forall i :: 0 <= i < |xs| ==> r[i] == prefix + xs[i]
    decreases |xs|
  {
    if |xs| > 0 {
      assert Prefixed(prefix, xs)[1..] == Prefixed(prefix, xs[1..]);
      RenderPrefixed(prefix, xs[1..]);
      var r := Render(Prefixed(prefix, xs));
      assert r == [prefix + xs[0]] + Render(Prefixed(prefix, xs[1..]));
    }
  }

  // ---------------------------------------------------------------- pushes

  /** `if (v) args.push(name, v)`. */
  method PushText(segs: seq<Arg>, name: string, v: Option<string>) returns (r: seq<Arg>)
    ensures r == segs + TextOpt(name, v)
  {
    r := segs;
    if Truthy(v) {
      r := r + [Pair(name, v.value)];
    }
  }

  /** `if (n !== undefined) args.push(name, n.toString())`. */
  method PushNum(segs: seq<Arg>, name: string, n: Option<int>) returns (r: seq<Arg>)
    ensures r == segs + NumOpt(name, n)
  {
    r := segs;
    if n.Some? {
      r := r + [Pair(name, IntToString(n.value))];
    }
  }

  /** `if (n) args.push(name, String(n))`. */
  method PushNumTruthy(segs: seq<Arg>, name: string, n: Option<int>) returns (r: seq<Arg>)
    ensures r == segs + NumTruthy(name, n)
  {
    r := segs;
    if NonZero(n) {
      r := r + [Pair(name, IntToString(n.value))];
    }
  }

  /** `if (b) args.push(name)`. */
  method PushSwitch(segs: seq<Arg>, name: string, b: Option<bool>) returns (r: seq<Arg>)
    ensures r == segs + Switch(name, b)
  {
    r := segs;
    if IsTrue(b) {
      r := r + [Flag(name)];
    }
  }

  /** `if (xs && xs.length > 0) args.push(name, xs.join(","))`. */
  method PushJoined(segs: seq<Arg>, name: string, xs: Option<seq<string>>) returns (r: seq<Arg>)
    ensures r == segs + JoinedOpt(name, xs)
  {
    r := segs;
    if NonEmpty(xs) {
      r := r + [Pair(name, Join(xs.value, ","))];
    }
  }

  /** `for (const x of xs) args.push(name, x)`. */
  method PushEach(segs: seq<Arg>, name: string, xs: seq<string>) returns (r: seq<Arg>)
    ensures r == segs + EachPair(name, xs)
  {
    r := segs;
    for i := 0 to |xs|
      invariant r == segs + EachPair(name, xs[..i])
    {
      assert EachPair(name, xs[..i + 1]) == EachPair(name, xs[..i]) + [Pair(name, xs[i])];
      r := r + [Pair(name, xs[i])];
    }
    assert xs[..|xs|] == xs;
  }

  /** `if (xs && xs.length > 0) args.push(name, ...xs)`. */
  method PushFlagThenAll(segs: seq<Arg>, name: string, xs: Option<seq<string>>) returns (r: seq<Arg>)
    ensures r == segs + FlagThenWords(name, xs)
  {
    r := segs;
    if NonEmpty(xs) {
      r := r + [Flag(name)] + Words(xs.value);
    }
  }

  /** `args.push(...xs)`. */
  method PushWords(segs: seq<Arg>, xs: seq<string>) returns (r: seq<Arg>)
    ensures r == segs + Words(xs)
  {
    r := segs + Words(xs);
  }

  /** `for (const x of xs) args.push(prefix + x)`. */
  method PushPrefixed(segs: seq<Arg>, prefix: string, xs: seq<string>) returns (r: seq<Arg>)
    ensures r == segs + Prefixed(prefix, xs)
  {
    r := segs;
    for i := 0 to |xs|
      invariant r == segs + Prefixed(prefix, xs[..i])
    {
      assert Prefixed(prefix, xs[..i + 1]) == Prefixed(prefix, xs[..i]) + [Flag(prefix + xs[i])];
      r := r + [Flag(prefix + xs[i])];
    }
    assert xs[..|xs|] == xs;
  }

  /** The values paired with `name`, in order. */
  function ValuesOf(segs: seq<Arg>, name: string): (r: seq<string>)
    decreases |segs|
  {
    if |segs| == 0 then []
    else (if segs[0].Pair? && segs[0].name == name then [segs[0].value] else []) + ValuesOf(segs[1..], name)
  }

  lemma {:induction false} ValuesOfAppend(a: seq<Arg>, b: seq<Arg>, name: string)
    ensures ValuesOf(a + b, name) == ValuesOf(a, name) + ValuesOf(b, name)
    decreases |a|
  {
    if |a| == 0 {
      assert a + b == b;
    } else {
      assert (a + b)[1..] == a[1..] + b;
      ValuesOfAppend(a[1..], b, name);
    }
  }

  /** Repeated pairs keep every value, in list order. */
  lemma {:induction false} ValuesOfEachPair(name: string, xs: seq<string>)
    ensures ValuesOf(EachPair(name, xs), name) == xs
    decreases |xs|
  {
    if |xs| > 0 {
      assert EachPair(name, xs)[1..] == EachPair(name, xs[1..]);
      ValuesOfEachPair(name, xs[1..]);
      assert [xs[0]] + xs[1..] == xs;
    }
  }

  /** Segments without a pair named `name` contribute no value for it. */
  lemma {:induction false} ValuesOfNoPair(segs: seq<Arg>, name: string)
    requires forall s :: s in segs ==> !(s.Pair? && s.name == name)
    ensures ValuesOf(segs, name) == []
    decreases |segs|
  {
    if |segs| > 0 {
      assert segs[0] in segs;
      forall s | s in segs[1..] ensures !(s.Pair? && s.name == name) {
        assert s in segs;
      }
      ValuesOfNoPair(segs[1..], name);
    }
  }

  /** The names whose entry in `on` is set, in their order. */
  function Chosen(on: seq<bool>, names: seq<string>): (r: seq<string>)
    requires |on| == |names|
    decreases |on|
  {
    if |on| == 0 then []
    else (if on[0] then [names[0]] else []) + Chosen(on[1..], names[1..])
  }

  /** Choosing some of the names keeps them in order. */
  lemma {:induction false} ChosenIsSubsequence(on: seq<bool>, names: seq<string>)
    requires |on| == |names|
    ensures IsSubsequence(Chosen(on, names), names)
    decreases |on|
  {
    if |on| > 0 {
      ChosenIsSubsequence(on[1..], names[1..]);
      var rest := Chosen(on[1..], names[1..]);
      if on[0] {
        var c := [names[0]] + rest;
        assert c == Chosen(on, names);
        assert c[0] == names[0] && c[1..] == rest;
      } else {
        assert Chosen(on, names) == rest;
        SubsequenceOfTail(rest, names);
      }
    }
  }

  lemma {:induction false} ChosenAppend(on1: seq<bool>, n1: seq<string>, on2: seq<bool>, n2: seq<string>)
    requires |on1| == |n1| && |on2| == |n2|
    ensures Chosen(on1 + on2, n1 + n2) == Chosen(on1, n1) + Chosen(on2, n2)
    decreases |on1|
  {
    if |on1| == 0 {
      assert on1 + on2 == on2 && n1 + n2 == n2;
    } else {
      assert (on1 + on2)[1..] == on1[1..] + on2 && (n1 + n2)[1..] == n1[1..] + n2;
      ChosenAppend(on1[1..], n1[1..], on2, n2);
    }
  }

  /** One switch renders as the choice of its single name. */
  lemma SwitchChosen(name: string, b: Option<bool>)
    ensures Render(Switch(name, b)) == Chosen([IsTrue(b)], [name])
  {
    assert [IsTrue(b)][1..] == [] && [name][1..] == [];
  }

  /** When the names are distinct, a name is chosen exactly when its entry is set. */
  lemma {:induction false} ChosenMembership(on: seq<bool>, names: seq<string>, k: nat)
    requires |on| == |names| && k < |names|
    requires forall i, j :: 0 <= i < j < |names| ==> names[i] != names[j]
    ensures names[k] in Chosen(on, names) <==> on[k]
    decreases |on|
  {
    var rest := Chosen(on[1..], names[1..]);
    assert Chosen(on, names) == (if on[0] then [names[0]] else []) + rest;
    if k == 0 {
      ChosenWithin(on[1..], names[1..]);
      assert names[0] !in names[1..];
    } else {
      ChosenMembership(on[1..], names[1..], k - 1);
    }
  }

  /** Only names from the list are chosen. */
  lemma {:induction false} ChosenWithin(on: seq<bool>, names: seq<string>)
    requires |on| == |names|
    ensures forall s :: s in Chosen(on, names) ==> s in names
    decreases |on|
  {
    if |on| > 0 {
      ChosenWithin(on[1..], names[1..]);
    }
  }

  /** Nothing is chosen when no entry is set. */
  lemma {:induction false} ChosenNone(on: seq<bool>, names: seq<string>)
    requires |on| == |names| && forall i :: 0 <= i < |on| ==> !on[i]
    ensures Chosen(on, names) == []
    decreases |on|
  {
    if |on| > 0 {
      ChosenNone(on[1..], names[1..]);
    }
  }

  /** One pair per element between two pieces free of that name: the values read back are the list. */
  lemma ValuesBetween(pre: seq<Arg>, name: string, xs: seq<string>, post: seq<Arg>)
    requires forall s :: s in pre ==> !(s.Pair? && s.name == name)
    requires forall s :: s in post ==> !(s.Pair? && s.name == name)
    ensures ValuesOf(pre + EachPair(name, xs) + post, name) == xs
  {
    ValuesOfNoPairAppend(pre + EachPair(name, xs), post, name);
    ValuesOfAppend(pre, EachPair(name, xs), name);
    ValuesOfNoPair(pre, name);
    ValuesOfEachPair(name, xs);
  }

  /** Appending segments without a pair named `name` leaves its values as they were. */
  lemma ValuesOfNoPairAppend(a: seq<Arg>, b: seq<Arg>, name: string)
    requires forall s :: s in b ==> !(s.Pair? && s.name == name)
    ensures ValuesOf(a + b, name) == ValuesOf(a, name)
  {
    ValuesOfAppend(a, b, name);
    ValuesOfNoPair(b, name);
  }

  /** The stdin text a URL tool's handler builds: one URL per line, each line ended. */
  function UrlLines(urls: seq<string>): string
  {
    Join(urls, "\n") + "\n"
  }

  /**
   * Reading the text back line by line gives the URLs and one empty piece
   * after the last newline; no URLs still make one empty line.
   */
  lemma UrlLinesSplit(urls: seq<string>)
    requires FreeOf(urls, '\n')
    ensures |urls| > 0 ==> Split(UrlLines(urls), '\n') == urls + [""]
    ensures |urls| == 0 ==> Split(UrlLines(urls), '\n') == ["", ""]
  {
    if |urls| > 0 {
      JoinAppend(urls, [""], "\n");
      assert Join([""], "\n") == "";
      assert UrlLines(urls) == Join(urls + [""], "\n");
      assert FreeOf(urls + [""], '\n') by {
        forall i | 0 <= i < |urls + [""]| ensures !HasChar((urls + [""])[i], '\n') {
          if i < |urls| { assert (urls + [""])[i] == urls[i]; }
        }
      }
      SplitJoin(urls + [""], '\n');
    } else {
      assert UrlLines(urls) == "\n";
      assert "\n" == "" + ['\n'] + "";
      SplitAppend("", "", '\n');
    }
  }
}
